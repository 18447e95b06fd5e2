/**
 * Safety of the listener: whatever its honest RPC answers, in any order and across any
 * reorgs, the database stays synchronized with the chain of its checkpoint.
 */
module ListenerSteps {
  import opened Results
  import opened Blocks
  import opened Tables
  import opened EscrowStore
  import opened EscrowSteps
  import opened Reorgs
  import opened Rewinds
  import opened Bootstrap
  import opened Replay
  import opened ReplaySteps
  import opened History
  import opened LogOrder
  import opened Listener
  import R = Redemptions

  lemma SyncedParts(db: DB, stream: Id, anchor: int, at: Checkpoint)
    requires Synced(db, stream, anchor, at)
    ensures EscrowInv(db) && CheckpointOf(db, stream) == Some(at) && -1 <= anchor <= at.next - 1 == Number(at.hash) && TipOf(at)
    ensures Linked(at.hash) && ValidChain(at.hash) && Retained(ChainOf(db, stream).blocks, at, anchor) && OneAnchor(db.escrow, stream, anchor)
    ensures Replays(db.escrow, Past(at.hash, anchor)) && RowsFromChain(db.escrow)
  {
    hide EscrowInv, Linked, ValidChain, Retained, OneAnchor, Replays, RowsFromChain, ChainOf;
  }

  lemma PartsSynced(db: DB, stream: Id, anchor: int, at: Checkpoint)
    requires EscrowInv(db) && CheckpointOf(db, stream) == Some(at) && -1 <= anchor <= at.next - 1 && TipOf(at)
    requires Linked(at.hash) && ValidChain(at.hash) && Retained(ChainOf(db, stream).blocks, at, anchor) && OneAnchor(db.escrow, stream, anchor)
    requires Replays(db.escrow, Past(at.hash, anchor)) && RowsFromChain(db.escrow)
    ensures Synced(db, stream, anchor, at)
  {
    hide EscrowInv, Linked, ValidChain, Retained, OneAnchor, Replays, RowsFromChain, ChainOf, TipOf;
  }

  // ---- Opening ----

  lemma NothingToReplay(e: Escrow)
    requires e.events == map[]
    ensures Replays(e, [])
  {
  }

  lemma BlankOpened(db: DB, db': DB, stream: Id, anchor: Block)
    requires Blank(db, stream) && OpenedAt(db, db', stream, anchor) && OpeningWrite(db, db') && anchor.number >= -1
    requires if anchor.number >= 0 then anchor.hash.Hash? && anchor.hash.number == anchor.number else anchor.hash == NoHash
    ensures var at := Checkpoint(anchor.number + 1, anchor.hash);
            && CheckpointOf(db', stream) == Some(at) && TipOf(at) && Retained(ChainOf(db', stream).blocks, at, anchor.number)
            && OneAnchor(db'.escrow, stream, anchor.number) && RowsFromChain(db'.escrow)
            && Replays(db'.escrow, Past(anchor.hash, anchor.number))
  {
    hide EscrowInv, BudgetFrame;
    NothingToReplay(db'.escrow);
    hide Replays;
  }

  lemma BlankInv(db: DB, stream: Id)
    requires Blank(db, stream)
    ensures EscrowInv(db)
  {
    hide EscrowInv;
  }

  lemma OpenShape(db: DB, c: Config, v: View)
    requires ValidConfig(c) && v.head >= 0 && OpenStep(db, c, v).progress == Ok(true)
    ensures var next := if c.start.Some? then c.start.value else v.head;
            && next >= 0 && OpeningAnchor(v, next).Some?
            && BootstrapChain(db, c.stream, OpeningAnchor(v, next).value, v.openings) == Ok(OpenStep(db, c, v).db)
            && var anchor := OpeningAnchor(v, next).value;
            && anchor.number == next - 1
            && (if next > 0 then Header(v, next - 1) == Some(anchor.hash) && anchor.hash.Hash? && anchor.hash.number == next - 1 else anchor.hash == NoHash)
  {
    hide BootstrapChain;
  }

  /** The first step of a blank stream synchronizes it with the block before the first scanned one. */
  lemma OpenSynced(db: DB, c: Config, v: View)
    requires Blank(db, c.stream) && ValidConfig(c) && v.head >= 0 && HonestHeaders(v)
    requires OpenStep(db, c, v).progress == Ok(true)
    ensures var next := if c.start.Some? then c.start.value else v.head;
            var db' := OpenStep(db, c, v).db;
            CheckpointOf(db', c.stream).Some? && CheckpointOf(db', c.stream).value.next == next &&
            Synced(db', c.stream, next - 1, CheckpointOf(db', c.stream).value)
  {
    hide *;
    OpenShape(db, c, v);
    BlankInv(db, c.stream);
    var next := if c.start.Some? then c.start.value else v.head;
    var anchor := OpeningAnchor(v, next).value;
    var db' := OpenStep(db, c, v).db;
    BootstrapKeeps(db, c.stream, anchor, v.openings);
    BlankOpened(db, db', c.stream, anchor);
    HonestHeader(v, next - 1);
    PartsSynced(db', c.stream, next - 1, Checkpoint(next, anchor.hash));
  }

  lemma HonestHeader(v: View, n: int)
    requires HonestHeaders(v)
    ensures Header(v, n).Some? ==> Header(v, n).value.Hash? && Header(v, n).value.number == n
    ensures Header(v, n).Some? ==> Linked(Header(v, n).value) && ValidChain(Header(v, n).value) && Number(Header(v, n).value) == n
    ensures Linked(NoHash) && ValidChain(NoHash)
  {
  }

  // ---- Reorgs ----

  lemma RowsRewound(e: Escrow, e': Escrow, after: int)
    requires RowsFromChain(e) && e' == RewoundRows(e, after).(chains := e'.chains)
    ensures RowsFromChain(e')
  {
    hide ValidBlock, BlockEvents;
  }

  lemma WindowCut(blocks: map<int, Hash>, at: Checkpoint, anchor: int, a: int)
    requires Retained(blocks, at, anchor) && TipOf(at) && Linked(at.hash) && a in blocks
    ensures var kept := map n | n in blocks && n <= a :: blocks[n];
            Retained(kept, Checkpoint(a + 1, blocks[a]), anchor) && TipOf(Checkpoint(a + 1, blocks[a])) && anchor <= a
    ensures blocks[a] == At(at.hash, a) && Linked(blocks[a])
  {
    AtNumber(at.hash, a);
    forall n | n in blocks && n <= a ensures blocks[n] == At(blocks[a], n) {
      AtAt(at.hash, a, n);
    }
  }

  /** A rewind inside the window cannot meet the opening snapshot, and follows the ancestor's chain. */
  lemma RewindSynced(db: DB, stream: Id, anchor: int, at: Checkpoint, a: int, settled: seq<LogId>, canonical: seq<LogId>)
    requires Synced(db, stream, anchor, at) && a in ChainOf(db, stream).blocks
    requires ListsSettlements(db, settled, a) && ListsEvents(db, canonical, a)
    ensures var b := Block(a, ChainOf(db, stream).blocks[a]);
            var r := Rewind(db, stream, b, settled, canonical);
            r.Ok? && Synced(r.value, stream, anchor, Checkpoint(a + 1, b.hash))
  {
    hide *;
    var b := Block(a, ChainOf(db, stream).blocks[a]);
    SyncedParts(db, stream, anchor, at);
    WindowCut(ChainOf(db, stream).blocks, at, anchor, a);
    WindowBelow(ChainOf(db, stream).blocks, at, anchor, a);
    AtValid(at.hash, a);
    AnchorsBelow(db, stream, anchor, a);
    RewindKeeps(db, stream, b, settled, canonical);
    RewindReplays(db, Past(at.hash, anchor), stream, b, settled, canonical);
    var db' := Rewind(db, stream, b, settled, canonical).value;
    PastUpto(at.hash, anchor, a);
    RowsRewound(db.escrow, db'.escrow, a);
    RewoundAnchor(db.escrow, db'.escrow, stream, anchor, a);
    TruncatedChain(db, db', stream, b);
    PartsSynced(db', stream, anchor, Checkpoint(a + 1, b.hash));
  }

  lemma RewoundAnchor(e: Escrow, e': Escrow, stream: Id, anchor: int, after: int)
    requires OneAnchor(e, stream, anchor) && e' == RewoundRows(e, after).(chains := e'.chains)
    ensures OneAnchor(e', stream, anchor)
  {
    hide OrphanedAfter, UnsettledAfter;
    AnchorKept(e, e', stream, anchor);
  }

  lemma NumberOfTip(at: Checkpoint)
    requires TipOf(at)
    ensures Number(at.hash) == at.next - 1
  {
  }

  lemma WindowBelow(blocks: map<int, Hash>, at: Checkpoint, anchor: int, a: int)
    requires Retained(blocks, at, anchor) && a in blocks
    ensures anchor <= a < at.next && 0 <= a
  {
  }

  lemma AnchorsBelow(db: DB, stream: Id, anchor: int, a: int)
    requires OneAnchor(db.escrow, stream, anchor) && anchor <= a
    ensures HasSnapshot(db, stream) && !BeforeAnchors(db, stream, a)
  {
    var k :| k in db.escrow.snapshots && k.0 == stream;
    assert db.escrow.snapshots[k].anchor == anchor;
  }

  lemma TruncatedChain(db: DB, db': DB, stream: Id, b: Block)
    requires db'.escrow.chains == Truncated(db, stream, b).escrow.chains
    ensures ChainOf(db', stream) ==
            Chain(map n | n in ChainOf(db, stream).blocks && n <= b.number :: ChainOf(db, stream).blocks[n], Some(Checkpoint(b.number + 1, b.hash)))
    ensures CheckpointOf(db', stream) == Some(Checkpoint(b.number + 1, b.hash))
  {
  }

  // ---- Batches ----

  /** Fetched headers are consecutive blocks, each the parent of the next. */
  lemma {:induction false} ChainedMeaning(v: View, prev: Hash, n: int, end: int)
    requires HonestHeaders(v) && Chained(v, prev, n, end).Ok? && n >= 0 && n - 1 <= end && Number(prev) == n - 1 && Linked(prev)
    ensures var hs := Chained(v, prev, n, end).value;
            var tip := if hs == [] then prev else hs[|hs| - 1];
            && Number(tip) == end && Linked(tip) && (hs == [] || ValidChain(tip)) && hs == Segment(tip, n - 1) && At(tip, n - 1) == prev
    decreases end - n + 1
  {
    hide Chained, Segment, At, Linked, ValidChain, Header, HonestHeaders, Number;
    if n > end {
      ChainedNone(v, prev, n, end);
    } else {
      ChainedOne(v, prev, n, end);
      var h := Header(v, n).value;
      HonestHeader(v, n);
      ChildLinks(h, prev, n);
      ChainedMeaning(v, h, n + 1, end);
      var rest := Chained(v, h, n + 1, end).value;
      var tip := if rest == [] then h else rest[|rest| - 1];
      AtAt(tip, n, n - 1);
      SegmentFront(tip, n - 1);
      var hs := [h] + rest;
      assert hs[|hs| - 1] == tip;
    }
  }

  lemma ChainedNone(v: View, prev: Hash, n: int, end: int)
    requires n > end && Number(prev) == n - 1
    ensures Chained(v, prev, n, end) == Ok([]) && Segment(prev, n - 1) == [] && At(prev, n - 1) == prev
  {
  }

  lemma ChainedOne(v: View, prev: Hash, n: int, end: int)
    requires Chained(v, prev, n, end).Ok? && n <= end
    ensures Header(v, n).Some? && (prev != NoHash ==> Header(v, n).value.parent == prev)
    ensures Chained(v, Header(v, n).value, n + 1, end).Ok?
    ensures Chained(v, prev, n, end).value == [Header(v, n).value] + Chained(v, Header(v, n).value, n + 1, end).value
  {
  }

  lemma FetchMeaning(v: View, prev: Hash, n: int, end: int)
    requires HonestHeaders(v) && Fetch(v, prev, n, end).Ok? && n >= 0 && n - 1 <= end && Number(prev) == n - 1 && Linked(prev)
    ensures var hs := Fetch(v, prev, n, end).value;
            var tip := if hs == [] then prev else hs[|hs| - 1];
            && Number(tip) == end && Linked(tip) && (hs == [] || ValidChain(tip)) && hs == Segment(tip, n - 1) && At(tip, n - 1) == prev
  {
    hide Chained, Segment, At, Linked, ValidChain, HonestHeaders, Number;
    ChainedMeaning(v, prev, n, end);
  }

  lemma ChildLinks(h: Hash, prev: Hash, n: int)
    requires Linked(h) && h.Hash? && h.number == n >= 0 && Number(prev) == n - 1 && (prev != NoHash ==> h.parent == prev)
    ensures h.parent == prev && At(h, n - 1) == prev && At(h, n) == h && Number(h) == n
  {
  }

  lemma {:induction false} SegmentFront(tip: Hash, from: int)
    requires Linked(tip) && -1 <= from < Number(tip)
    ensures Segment(tip, from) == [At(tip, from + 1)] + Segment(tip, from + 1)
  {
    if tip.number > from + 1 {
      SegmentFront(tip.parent, from);
    }
  }

  ghost predicate OnTheirBlocks(events: seq<Event>) {
    forall e :: e in events ==> ValidBlock(e.log.blockHash) && e in BlockEvents(e.log.blockHash)
  }

  lemma {:induction false} EventsOnBlocks(hashes: seq<Hash>)
    requires forall i :: 0 <= i < |hashes| ==> hashes[i].Hash? && ValidBlock(hashes[i])
    ensures OnTheirBlocks(EventsOf(hashes))
  {
    if hashes != [] {
      EventsOnBlocks(hashes[..|hashes| - 1]);
      BlockInOrder(hashes[|hashes| - 1]);
    }
  }

  lemma EventRows(db: DB, e: Event)
    requires EscrowInv(db) && Decoded(e) && RowsFromChain(db.escrow) && ApplyEvent(db, e).Ok?
    requires ValidBlock(e.log.blockHash) && e in BlockEvents(e.log.blockHash)
    ensures EscrowInv(ApplyEvent(db, e).value) && RowsFromChain(ApplyEvent(db, e).value.escrow)
  {
    ApplyEventKeeps(db, e);
    hide EscrowInv, ApplyEvent, ValidBlock, BlockEvents, RowsOnly, Covered, AlreadySettled, SplitOk;
    if !AlreadyCanonical(db, e) {
      EventRowsStep(db, ApplyEvent(db, e).value, e);
    }
  }

  lemma EventRowsStep(db: DB, db': DB, e: Event)
    requires RowsFromChain(db.escrow) && ValidBlock(e.log.blockHash) && e in BlockEvents(e.log.blockHash) && Decoded(e)
    requires SameEvent(db, e) && db'.escrow.events == db.escrow.events[e.log := NextEvent(db, e)]
    requires e.kind == WinningTicketRedeemed ==> e.settlement.Some? && SameSettlement(db, e.settlement.value)
    requires db'.escrow.settlements == if e.kind == WinningTicketRedeemed then SettledRows(db, e.settlement.value) else db.escrow.settlements
    ensures RowsFromChain(db'.escrow)
  {
    hide ValidBlock, BlockEvents;
    forall id | id in db'.escrow.events
      ensures ValidBlock(id.blockHash) && exists ev :: ev in BlockEvents(id.blockHash) && ev.log == id && db'.escrow.events[id].data == EventDataOf(ev)
    {
      if id != e.log { assert id in db.escrow.events; }
    }
    forall id | id in db'.escrow.settlements
      ensures ValidBlock(id.blockHash) &&
              exists ev :: ev in BlockEvents(id.blockHash) && ev.log == id && ev.settlement.Some? && db'.escrow.settlements[id].data == SettlementDataOf(ev.settlement.value)
    {
      if id != e.log { assert id in db.escrow.settlements; }
    }
  }

  lemma {:induction false} EventsRows(db: DB, events: seq<Event>)
    requires EscrowInv(db) && RowsFromChain(db.escrow) && OnTheirBlocks(events) && (forall e :: e in events ==> Decoded(e))
    requires ApplyEvents(db, events).Ok?
    ensures EscrowInv(ApplyEvents(db, events).value) && RowsFromChain(ApplyEvents(db, events).value.escrow)
    ensures ApplyEvents(db, events).value.escrow.snapshots == db.escrow.snapshots
    ensures ApplyEvents(db, events).value.escrow.chains == db.escrow.chains
  {
    hide EscrowInv, RowsFromChain, ApplyEvent, ValidBlock, BlockEvents, Decoded;
    if events != [] {
      var front, last := events[..|events| - 1], events[|events| - 1];
      assert last in events;
      EventsRows(db, front);
      EventRows(ApplyEvents(db, front).value, last);
      EventKeepsChains(ApplyEvents(db, front).value, last);
    }
  }

  lemma EventKeepsChains(db: DB, e: Event)
    requires EscrowInv(db) && Decoded(e) && ApplyEvent(db, e).Ok?
    ensures ApplyEvent(db, e).value.escrow.snapshots == db.escrow.snapshots && ApplyEvent(db, e).value.escrow.chains == db.escrow.chains
  {
    hide EscrowInv, ApplyEvent, Applicable, BudgetFrame, RowKeysAdded;
    ApplyEventKeeps(db, e);
  }

  lemma {:induction false} PutBlocksMeaning(blocks: map<int, Hash>, hashes: seq<Hash>, from: int)
    ensures var out := PutBlocks(blocks, BlocksOf(hashes, from));
            forall n :: (n in out <==> n in blocks || from <= n < from + |hashes|) &&
                        (n in out ==> out[n] == if from <= n < from + |hashes| then hashes[n - from] else blocks[n])
    decreases |hashes|
  {
    if hashes != [] {
      var front := hashes[..|hashes| - 1];
      PutBlocksMeaning(blocks, front, from);
      var batch := BlocksOf(hashes, from);
      assert batch[..|hashes| - 1] == BlocksOf(front, from);
      assert batch[|hashes| - 1] == Block(from + |hashes| - 1, hashes[|hashes| - 1]);
      assert PutBlocks(blocks, batch) == PutBlocks(blocks, BlocksOf(front, from))[from + |hashes| - 1 := hashes[|hashes| - 1]];
      hide PutBlocks, BlocksOf;
    }
  }

  lemma PutOnChain(blocks: map<int, Hash>, at: Checkpoint, anchor: int, tip: Hash, n: int)
    requires Retained(blocks, at, anchor) && TipOf(at) && anchor <= at.next - 1 && at.next <= Number(tip)
    requires Linked(tip) && At(tip, at.next - 1) == at.hash
    ensures var put := PutBlocks(blocks, BlocksOf(Segment(tip, at.next - 1), at.next));
            && (n in put <==> n in blocks || at.next <= n <= Number(tip))
            && (n in put ==> 0 <= n && anchor <= n <= Number(tip) && put[n] == At(tip, n))
  {
    hide Segment, Linked, PutBlocks, BlocksOf, At;
    SegmentMeaning(tip, at.next - 1);
    PutBlocksMeaning(blocks, Segment(tip, at.next - 1), at.next);
    if n in blocks { AtAt(tip, at.next - 1, n); }
  }

  lemma WindowExtended(blocks: map<int, Hash>, at: Checkpoint, anchor: int, tip: Hash, lookback: int)
    requires Retained(blocks, at, anchor) && TipOf(at) && anchor <= at.next - 1 && at.next <= Number(tip) && lookback >= 1
    requires Linked(tip) && At(tip, at.next - 1) == at.hash
    ensures var put := PutBlocks(blocks, BlocksOf(Segment(tip, at.next - 1), at.next));
            var kept := map n | n in put && n >= Number(tip) - lookback :: put[n];
            Retained(kept, Checkpoint(Number(tip) + 1, tip), anchor)
  {
    var put := PutBlocks(blocks, BlocksOf(Segment(tip, at.next - 1), at.next));
    forall n ensures (n in put <==> n in blocks || at.next <= n <= Number(tip)) &&
                     (n in put ==> 0 <= n && anchor <= n <= Number(tip) && put[n] == At(tip, n))
    {
      PutOnChain(blocks, at, anchor, tip, n);
    }
    hide Segment, Linked, PutBlocks, BlocksOf, At;
  }

  lemma ApplySynced(db: DB, stream: Id, anchor: int, at: Checkpoint, tip: Hash, lookback: int)
    requires Synced(db, stream, anchor, at) && lookback >= 1
    requires Linked(tip) && ValidChain(tip) && at.next <= Number(tip) && At(tip, at.next - 1) == at.hash
    requires ApplyChain(db, stream, BlocksOf(Segment(tip, at.next - 1), at.next), EventsOf(Segment(tip, at.next - 1)), lookback).Ok?
    ensures var r := ApplyChain(db, stream, BlocksOf(Segment(tip, at.next - 1), at.next), EventsOf(Segment(tip, at.next - 1)), lookback);
            Synced(r.value, stream, anchor, Checkpoint(Number(tip) + 1, tip))
  {
    hide *;
    SyncedParts(db, stream, anchor, at);
    var hs := Segment(tip, at.next - 1);
    var events := EventsOf(hs);
    SegmentMeaning(tip, at.next - 1);
    SegmentValid(tip, at.next - 1);
    EventsOnBlocks(hs);
    PastExtends(tip, at.next - 1, anchor);
    PastBlocks(tip, anchor);
    EventsDecoded(Past(at.hash, anchor), events);
    var db' := ApplyChain(db, stream, BlocksOf(hs, at.next), events, lookback).value;
    ApplyChainReplays(db, Past(at.hash, anchor), stream, BlocksOf(hs, at.next), events, lookback);
    WindowExtended(ChainOf(db, stream).blocks, at, anchor, tip, lookback);
    AppliedRows(db, stream, BlocksOf(hs, at.next), events, lookback);
    AnchorKept(db.escrow, db'.escrow, stream, anchor);
    TipNumber(tip);
    assert tip == hs[|hs| - 1] by { SelfAt(tip); }
    PartsSynced(db', stream, anchor, Checkpoint(Number(tip) + 1, tip));
  }

  lemma TipNumber(tip: Hash)
    requires Number(tip) >= 0
    ensures TipOf(Checkpoint(Number(tip) + 1, tip))
  {
  }

  lemma SelfAt(tip: Hash)
    ensures At(tip, Number(tip)) == tip
  {
  }

  lemma EventsDecoded(past: seq<Event>, events: seq<Event>)
    requires forall e :: e in past + events ==> Decoded(e)
    ensures forall e :: e in events ==> Decoded(e)
  {
    hide Decoded;
    forall e | e in events ensures e in past + events { }
  }

  lemma AnchorKept(e: Escrow, e': Escrow, stream: Id, anchor: int)
    requires OneAnchor(e, stream, anchor) && e'.snapshots == e.snapshots
    ensures OneAnchor(e', stream, anchor)
  {
  }

  lemma {:induction false} SegmentValid(tip: Hash, from: int)
    requires ValidChain(tip)
    ensures forall i :: 0 <= i < |Segment(tip, from)| ==> Segment(tip, from)[i].Hash? && ValidBlock(Segment(tip, from)[i])
  {
    hide ValidBlock;
    if tip.Hash? && tip.number > from { SegmentValid(tip.parent, from); }
  }

  /** What a batch leaves of blocks and rows. */
  lemma AppliedRows(db: DB, stream: Id, blocks: seq<Block>, events: seq<Event>, lookback: int)
    requires EscrowInv(db) && RowsFromChain(db.escrow) && OnTheirBlocks(events) && (forall e :: e in events ==> Decoded(e))
    requires ApplyChain(db, stream, blocks, events, lookback).Ok?
    ensures blocks != []
    ensures var db' := ApplyChain(db, stream, blocks, events, lookback).value;
            var put := PutBlocks(ChainOf(db, stream).blocks, blocks);
            var last := blocks[|blocks| - 1];
            && RowsFromChain(db'.escrow) && db'.escrow.snapshots == db.escrow.snapshots
            && ChainOf(db', stream) == Chain(map n | n in put && n >= last.number - lookback :: put[n], Some(Checkpoint(last.number + 1, last.hash)))
            && CheckpointOf(db', stream) == Some(Checkpoint(last.number + 1, last.hash))
  {
    hide EscrowInv, ApplyEvents, Decoded, PutBlocks, OnTheirBlocks, RowsFromChain;
    var c := Chain(PutBlocks(ChainOf(db, stream).blocks, blocks), ChainOf(db, stream).checkpoint);
    var db1 := WithChain(db, stream, c);
    ChainFrame(db, stream, c);
    RowsOfChain(db, stream, c);
    EventsRows(db1, events);
    var db2 := ApplyEvents(db1, events).value;
    RowsOfChain(db2, stream, ApplyChain(db, stream, blocks, events, lookback).value.escrow.chains[stream]);
  }

  lemma RowsOfChain(db: DB, stream: Id, c: Chain)
    requires RowsFromChain(db.escrow)
    ensures RowsFromChain(WithChain(db, stream, c).escrow)
  {
    hide ValidBlock, BlockEvents;
  }

  /** What a batch that is applied has fetched and checked. */
  lemma BatchApplied(db: DB, c: Config, v: View, next: int, hash: Hash)
    requires BatchStep(db, c, v, next, hash).progress == Ok(true)
    ensures var end := BatchEnd(c, next, v.head - c.confirmations);
            var fetched := Fetch(v, hash, next, end);
            && v.head - c.confirmations >= next && fetched.Ok? && Gather(v.logs, fetched.value, next).Ok? && fetched.value != []
            && v.lastAgain == Some(fetched.value[|fetched.value| - 1])
            && var logs := Gather(v.logs, fetched.value, next).value;
            && R.Correlate(DecodeAll(logs)).Ok?
            && ApplyChain(db, c.stream, BlocksOf(fetched.value, next), R.Correlate(DecodeAll(logs)).value, c.lookback) ==
               Ok(BatchStep(db, c, v, next, hash).db)
  {
    hide ApplyChain, Fetch, Gather, R.Correlate, DecodeAll, BlocksOf, BatchEnd;
  }

  lemma BatchUnchanged(db: DB, c: Config, v: View, next: int, hash: Hash)
    ensures var s := BatchStep(db, c, v, next, hash);
            s.progress != Ok(true) ==> s.db == db
  {
    hide ApplyChain, Fetch, Gather, R.Correlate, DecodeAll, BlocksOf, BatchEnd;
  }

  lemma EndAfterNext(c: Config, next: int, confirmed: int)
    requires ValidConfig(c) && confirmed >= next
    ensures next <= BatchEnd(c, next, confirmed) <= confirmed
  {
  }

  lemma BatchSynced(db: DB, c: Config, v: View, anchor: int, at: Checkpoint)
    requires Synced(db, c.stream, anchor, at) && ValidConfig(c) && HonestHeaders(v) && HonestLogs(c, v, at)
    requires BatchStep(db, c, v, at.next, at.hash).progress == Ok(true)
    ensures var end := BatchEnd(c, at.next, v.head - c.confirmations);
            var db' := BatchStep(db, c, v, at.next, at.hash).db;
            && at.next <= end && CheckpointOf(db', c.stream).Some? && CheckpointOf(db', c.stream).value.next == end + 1
            && Synced(db', c.stream, anchor, CheckpointOf(db', c.stream).value)
  {
    hide EscrowInv, Replays, ApplyChain, Linked, ValidChain, RowsFromChain, Segment, EventsOf, Fetch, Retained, OneAnchor, HonestHeaders, ValidBlock,
         R.Correlate, DecodeAll, LogsOf, BlocksOf, BatchStep, BatchEnd, Gather, Complete, Consecutive, HonestLogs, ValidConfig;
    var end := BatchEnd(c, at.next, v.head - c.confirmations);
    BatchApplied(db, c, v, at.next, at.hash);
    EndAfterNext(c, at.next, v.head - c.confirmations);
    var hs := Fetch(v, at.hash, at.next, end).value;
    NumberOfTip(at);
    NextNotNegative(at);
    FetchMeaning(v, at.hash, at.next, end);
    var tip := hs[|hs| - 1];
    SegmentValid(tip, at.next - 1);
    SegmentConsecutive(tip, at.next - 1);
    HonestBatch(c, v, at);
    GathersTheLogs(v.logs, hs, at.next);
    BatchCorrelates(hs);
    LookbackOk(c);
    hide TipOf, At;
    ApplySynced(db, c.stream, anchor, at, tip, c.lookback);
  }

  lemma HonestBatch(c: Config, v: View, at: Checkpoint)
    requires HonestLogs(c, v, at) && v.head - c.confirmations >= at.next
    requires var fetched := Fetch(v, at.hash, at.next, BatchEnd(c, at.next, v.head - c.confirmations));
             fetched.Ok? && fetched.value != [] && v.lastAgain == Some(fetched.value[|fetched.value| - 1])
    ensures Complete(v.logs, Fetch(v, at.hash, at.next, BatchEnd(c, at.next, v.head - c.confirmations)).value)
  {
    hide Fetch, BatchEnd, Complete;
  }

  lemma SegmentConsecutive(tip: Hash, from: int)
    requires Linked(tip) && ValidChain(tip) && -1 <= from <= Number(tip)
    ensures Consecutive(Segment(tip, from), from + 1)
  {
    SegmentMeaning(tip, from);
    SegmentValid(tip, from);
    hide Segment, Linked, ValidChain, At, ValidBlock;
    forall i | 0 <= i < |Segment(tip, from)| ensures ValidBlock(Segment(tip, from)[i]) && Segment(tip, from)[i].number == from + 1 + i {
      AtNumber(tip, from + 1 + i);
    }
  }

  lemma LookbackOk(c: Config)
    requires ValidConfig(c)
    ensures c.lookback >= 1
  {
  }

  lemma NextNotNegative(at: Checkpoint)
    requires TipOf(at)
    ensures at.next >= 0
  {
  }

  /** Every step keeps the database synchronized, and never meets its opening snapshot. */
  lemma FollowSynced(db: DB, c: Config, v: View, anchor: int, at: Checkpoint)
    requires Synced(db, c.stream, anchor, at) && ValidConfig(c) && Honest(db, c, v, at)
    ensures var s := FollowStep(db, c, v, at);
            && CheckpointOf(s.db, c.stream).Some? && Synced(s.db, c.stream, anchor, CheckpointOf(s.db, c.stream).value)
            && s.progress != Err(SnapshotBoundary)
  {
    hide EscrowInv, Replays, RowsFromChain, ValidChain, Linked, Retained, Rewind, BatchStep, HonestHeaders, HonestLogs, OneAnchor, TipOf,
         ListsSettlements, ListsEvents, FindAncestor;
    var s := FollowStep(db, c, v, at);
    if at.next > 0 && Header(v, at.next - 1).Some? && Header(v, at.next - 1).value != at.hash {
      var blocks := ChainOf(db, c.stream).blocks;
      var found := FindAncestor(v, blocks, at.next - 1, at.next - 1 - c.lookback);
      if found.Ok? && found.value in blocks {
        RewindSynced(db, c.stream, anchor, at, found.value, v.settled, v.canonical);
      }
      AncestorErrors(v, blocks, at.next - 1, at.next - 1 - c.lookback);
    } else if at.next <= 0 || Header(v, at.next - 1).Some? {
      BatchUnchanged(db, c, v, at.next, at.hash);
      if BatchStep(db, c, v, at.next, at.hash).progress == Ok(true) { BatchSynced(db, c, v, anchor, at); }
      BatchErrors(db, c, v, at.next, at.hash);
    }
  }

  lemma {:induction false} AncestorErrors(v: View, blocks: map<int, Hash>, n: int, floor: int)
    ensures FindAncestor(v, blocks, n, floor).Err? ==>
              FindAncestor(v, blocks, n, floor).error == RpcError || FindAncestor(v, blocks, n, floor).error == ReorgTooDeep
    decreases n - floor + 1
  {
    if floor <= n { AncestorErrors(v, blocks, n - 1, floor); }
  }

  lemma BatchErrors(db: DB, c: Config, v: View, next: int, hash: Hash)
    ensures BatchStep(db, c, v, next, hash).progress != Err(SnapshotBoundary)
  {
    hide ApplyChain, Fetch, Gather, DecodeAll, BlocksOf, BatchEnd, R.Correlate;
    if v.head - c.confirmations >= next { FetchErrors(v, hash, next, BatchEnd(c, next, v.head - c.confirmations)); }
  }

  lemma FetchErrors(v: View, prev: Hash, n: int, end: int)
    ensures Fetch(v, prev, n, end).Err? ==> Fetch(v, prev, n, end).error != SnapshotBoundary
  {
    ChainedErrors(v, prev, n, end);
  }

  lemma {:induction false} ChainedErrors(v: View, prev: Hash, n: int, end: int)
    ensures Chained(v, prev, n, end).Err? ==> Chained(v, prev, n, end).error != SnapshotBoundary
    decreases end - n + 1
  {
    if n <= end && Header(v, n).Some? { ChainedErrors(v, Header(v, n).value, n + 1, end); }
  }

  // ---- Any sequence of polls ----

  /** The stream has not started, or its database follows the chain of its checkpoint. */
  ghost predicate Following(db: DB, c: Config) {
    Blank(db, c.stream) || exists anchor, at :: Synced(db, c.stream, anchor, at)
  }

  ghost predicate HonestTurn(db: DB, c: Config, v: View) {
    match CheckpointOf(db, c.stream)
    case Some(at) => Honest(db, c, v, at)
    case None =>
      && v.head >= 0 && HonestHeaders(v)
      && var opening := OpenStep(db, c, v);
         opening.progress.Ok? && CheckpointOf(opening.db, c.stream).Some? ==> Honest(opening.db, c, v, CheckpointOf(opening.db, c.stream).value)
  }

  ghost function Polled(db: DB, c: Config, views: seq<View>): DB {
    if views == [] then db else Advance(Polled(db, c, views[..|views| - 1]), c, views[|views| - 1]).db
  }

  ghost predicate AllHonest(db: DB, c: Config, views: seq<View>) {
    views == [] ||
    (AllHonest(db, c, views[..|views| - 1]) && HonestTurn(Polled(db, c, views[..|views| - 1]), c, views[|views| - 1]))
  }

  lemma SyncedCheckpoint(db: DB, stream: Id, anchor: int, at: Checkpoint)
    requires Synced(db, stream, anchor, at)
    ensures CheckpointOf(db, stream) == Some(at) && !Blank(db, stream)
  {
    hide EscrowInv, Linked, ValidChain, Retained, OneAnchor, Replays, RowsFromChain, ChainOf;
  }

  lemma OpenUnchanged(db: DB, c: Config, v: View)
    ensures OpenStep(db, c, v).progress.Ok? ==> OpenStep(db, c, v).progress == Ok(true)
    ensures OpenStep(db, c, v).progress.Err? ==> OpenStep(db, c, v).db == db
  {
    hide BootstrapChain;
  }

  lemma AdvanceFollows(db: DB, c: Config, v: View)
    requires Following(db, c) && ValidConfig(c) && HonestTurn(db, c, v)
    ensures Following(Advance(db, c, v).db, c)
  {
    hide Synced, Blank, ValidConfig, Honest, HonestHeaders, FollowStep, OpenStep, ChainOf;
    if Blank(db, c.stream) {
      BlankCheckpoint(db, c.stream);
      OpenUnchanged(db, c, v);
      if OpenStep(db, c, v).progress.Ok? {
        OpenSynced(db, c, v);
        var next := if c.start.Some? then c.start.value else v.head;
        var db1 := OpenStep(db, c, v).db;
        FollowSynced(db1, c, v, next - 1, CheckpointOf(db1, c.stream).value);
      }
    } else {
      var anchor, at :| Synced(db, c.stream, anchor, at);
      SyncedCheckpoint(db, c.stream, anchor, at);
      FollowSynced(db, c, v, anchor, at);
    }
  }

  lemma BlankCheckpoint(db: DB, stream: Id)
    requires Blank(db, stream)
    ensures CheckpointOf(db, stream).None?
  {
    hide EscrowInv;
  }

  lemma {:induction false} PolledFollows(db: DB, c: Config, views: seq<View>)
    requires Following(db, c) && ValidConfig(c) && AllHonest(db, c, views)
    ensures Following(Polled(db, c, views), c)
  {
    hide Following, ValidConfig, HonestTurn, Advance;
    if views != [] {
      PolledFollows(db, c, views[..|views| - 1]);
      AdvanceFollows(Polled(db, c, views[..|views| - 1]), c, views[|views| - 1]);
    }
  }

  /**
   * However the canonical chain moves between polls, every sender's balances are those
   * of replaying, from the opening snapshot and its anchor, the chain the checkpoint's
   * hash names.
   */
  lemma PolledBalances(db: DB, c: Config, views: seq<View>, sender: Id)
    requires Following(db, c) && ValidConfig(c) && AllHonest(db, c, views) && CheckpointOf(Polled(db, c, views), c.stream).Some?
    ensures var end := Polled(db, c, views);
            exists anchor :: OneAnchor(end.escrow, c.stream, anchor) &&
              Fold(OpeningPool(end.escrow, sender), Past(CheckpointOf(end, c.stream).value.hash, anchor), sender) == Ok(HeldPool(end, sender))
    ensures Solvent(HeldPool(Polled(db, c, views), sender))
  {
    hide Following, ValidConfig, AllHonest, Polled, ChainOf, Fold, HeldPool, Past;
    PolledFollows(db, c, views);
    FollowingBalances(Polled(db, c, views), c, sender);
  }

  lemma FollowingBalances(db: DB, c: Config, sender: Id)
    requires Following(db, c) && CheckpointOf(db, c.stream).Some?
    ensures exists anchor :: OneAnchor(db.escrow, c.stream, anchor) &&
              Fold(OpeningPool(db.escrow, sender), Past(CheckpointOf(db, c.stream).value.hash, anchor), sender) == Ok(HeldPool(db, sender))
    ensures Solvent(HeldPool(db, sender))
  {
    hide Synced, Blank, ChainOf, Fold, HeldPool, Past, OneAnchor;
    if Blank(db, c.stream) { BlankCheckpoint(db, c.stream); }
    var anchor, at :| Synced(db, c.stream, anchor, at);
    SyncedParts(db, c.stream, anchor, at);
    InvParts(db);
    BalancesAreReplayed(db, Past(at.hash, anchor), sender);
  }

  /** Writes of the other feeds change no more of the escrow than matches, and keep it synchronized. */
  lemma OtherWritesSynced(db: DB, db': DB, stream: Id, anchor: int, at: Checkpoint)
    requires Synced(db, stream, anchor, at) && EscrowInv(db')
    requires db'.escrow.chains == db.escrow.chains && db'.escrow.snapshots == db.escrow.snapshots && db'.escrow.events == db.escrow.events
    requires db'.escrow.settlements.Keys == db.escrow.settlements.Keys
    requires forall id :: id in db.escrow.settlements ==>
               db'.escrow.settlements[id] == db.escrow.settlements[id].(matching := db'.escrow.settlements[id].matching)
    ensures Synced(db', stream, anchor, at)
  {
    hide Synced, EscrowInv, Linked, ValidChain, Retained, TipOf, Past;
    SyncedParts(db, stream, anchor, at);
    MatchesReplay(db.escrow, db'.escrow, Past(at.hash, anchor));
    hide Replays;
    AnchorKept(db.escrow, db'.escrow, stream, anchor);
    hide OneAnchor;
    assert RowsFromChain(db'.escrow) by { hide ValidBlock, BlockEvents; }
    hide RowsFromChain;
    PartsSynced(db', stream, anchor, at);
  }

  lemma MatchesReplay(e: Escrow, e': Escrow, history: seq<Event>)
    requires Replays(e, history) && e'.snapshots == e.snapshots && e'.events == e.events && e'.settlements.Keys == e.settlements.Keys
    requires forall id :: id in e.settlements ==> e'.settlements[id] == e.settlements[id].(matching := e'.settlements[id].matching)
    ensures Replays(e', history)
  {
    forall sender ensures Fold(OpeningPool(e', sender), history, sender).Ok? {
      assert OpeningPool(e', sender) == OpeningPool(e, sender);
    }
    forall i | 0 <= i < |history| ensures Recorded(e', history[i]) { assert Recorded(e, history[i]); }
  }
}

/**
 * The events a chain of blocks stands for: decoding (Decode in
 * internal/chain/listener.go:578-682), correlation per block, and the history of a tip.
 */
module History {
  import opened Results
  import opened Blocks
  import opened EscrowSteps
  import opened Reorgs
  import opened Replay
  import opened ReplaySteps
  import R = Redemptions

  /** A log as the RPC returns it: the block it claims and its content. */
  datatype Log = Log(block: Hash, raw: RawLog)

  /** Decode: which fields an event carries depends on its type. */
  function Decode(l: Log): (e: Event)
    requires l.block.Hash?
    ensures e.log == LogId(l.block, l.raw.txHash, l.raw.logIndex) && e.block == l.block.number && Decoded(e)
    ensures e.kind == l.raw.kind && (e.settlement.Some? <==> e.kind == WinningTicketRedeemed)
  {
    var r := l.raw;
    var id := LogId(l.block, r.txHash, r.logIndex);
    match r.kind
    case DepositFunded => Event(r.kind, id, l.block.number, r.sender, "", r.amount, 0, 0, None)
    case ReserveFunded => Event(r.kind, id, l.block.number, r.sender, "", r.amount, 0, 0, None)
    case Withdrawal => Event(r.kind, id, l.block.number, r.sender, "", 0, r.depositAmount, r.reserveAmount, None)
    case WinningTicketRedeemed =>
      Event(r.kind, id, l.block.number, r.sender, r.recipient, r.amount, 0, 0,
            Some(Settlement(id, l.block.number, r.sender, r.recipient, r.amount, 0, 0, 0, r.ticket)))
    case _ => Event(r.kind, id, l.block.number, r.sender, r.recipient, r.amount, 0, 0, None)
  }

  predicate FromBlocks(logs: seq<Log>) {
    forall i :: 0 <= i < |logs| ==> logs[i].block.Hash?
  }

  function DecodeAll(logs: seq<Log>): (events: seq<Event>)
    requires FromBlocks(logs)
    ensures |events| == |logs| && forall i :: 0 <= i < |logs| ==> events[i] == Decode(logs[i])
  {
    if logs == [] then [] else DecodeAll(logs[..|logs| - 1]) + [Decode(logs[|logs| - 1])]
  }

  function BlockLogs(h: Hash): (logs: seq<Log>)
    requires h.Hash?
    ensures |logs| == |h.logs| && FromBlocks(logs)
    ensures forall i :: 0 <= i < |logs| ==> logs[i] == Log(h, h.logs[i])
  {
    seq(|h.logs|, i requires 0 <= i < |h.logs| => Log(h, h.logs[i]))
  }

  /** The contract's logs of a block are indexed in order and complete its payments. */
  ghost predicate ValidBlock(h: Hash) {
    && h.Hash?
    && (forall i, j :: 0 <= i < j < |h.logs| ==> h.logs[i].logIndex < h.logs[j].logIndex)
    && R.Grammar(DecodeAll(BlockLogs(h)))
  }

  function BlockEvents(h: Hash): seq<Event> {
    if h == NoHash then [] else
      var c := R.Correlate(DecodeAll(BlockLogs(h)));
      if c.Ok? then c.value else []
  }

  // ---- The same logs under another block hash ----

  /** What correlation reads of an event, which is everything but its block. */
  predicate Alike(e: Event, f: Event) {
    && e.kind == f.kind && e.log.txHash == f.log.txHash && e.sender == f.sender && e.recipient == f.recipient && e.amount == f.amount
    && (e.settlement.Some? <==> f.settlement.Some?) && (e.settlement.Some? ==> e.settlement.value.face == f.settlement.value.face)
  }

  predicate AllAlike(events: seq<Event>, others: seq<Event>) {
    |events| == |others| && forall i :: 0 <= i < |events| ==> Alike(events[i], others[i])
  }

  lemma AlikeParts(events: seq<Event>, others: seq<Event>, n: int)
    requires AllAlike(events, others) && 0 <= n <= |events|
    ensures AllAlike(events[..n], others[..n]) && AllAlike(events[n..], others[n..])
  {
    hide Alike;
  }

  lemma GroupAlike(g: seq<Event>, other: seq<Event>)
    requires AllAlike(g, other) && R.Group(g)
    ensures R.Group(other)
  {
    assert Alike(g[|g| - 1], other[|g| - 1]);
    if |g| >= 2 { assert Alike(g[|g| - 2], other[|g| - 2]); }
    if |g| == 3 { assert Alike(g[0], other[0]) && Alike(g[1], other[1]); }
  }

  lemma GroupThen(events: seq<Event>, n: int)
    requires 1 <= n <= 3 && n <= |events| && R.Group(events[..n]) && R.Grammar(events[n..])
    ensures R.Grammar(events)
  {
    hide R.Group, R.Plain;
  }

  lemma PlainThen(events: seq<Event>)
    requires events != [] && R.Plain(events[0]) && R.Grammar(events[1..])
    ensures R.Grammar(events)
  {
    hide R.Group, R.Plain;
  }

  lemma {:induction false} GrammarAlike(events: seq<Event>, others: seq<Event>)
    requires AllAlike(events, others) && R.Grammar(events)
    ensures R.Grammar(others)
    decreases |events|
  {
    hide R.Group, AllAlike;
    if events == [] {
      NoneAlike(events, others);
    } else if R.Plain(events[0]) && R.Grammar(events[1..]) {
      AlikeParts(events, others, 1);
      HeadAlike(events, others);
      GrammarAlike(events[1..], others[1..]);
      PlainThen(others);
    } else {
      var n :| 1 <= n <= 3 && n <= |events| && R.Group(events[..n]) && R.Grammar(events[n..]);
      HeadAlike(events, others);
      AlikeParts(events, others, n);
      GroupAlike(events[..n], others[..n]);
      GrammarAlike(events[n..], others[n..]);
      GroupThen(others, n);
    }
  }

  lemma NoneAlike(events: seq<Event>, others: seq<Event>)
    requires AllAlike(events, others) && events == []
    ensures others == []
  {
  }

  lemma HeadAlike(events: seq<Event>, others: seq<Event>)
    requires AllAlike(events, others) && events != []
    ensures |others| == |events| && events[0].kind == others[0].kind
  {
    assert Alike(events[0], others[0]);
  }

  /** Mined again with the same logs a block is another block, and as valid. */
  lemma Remined(h: Hash, rest: string)
    requires ValidBlock(h) && rest != h.rest
    ensures h.(rest := rest) != h && ValidBlock(h.(rest := rest))
  {
    GrammarAlike(DecodeAll(BlockLogs(h)), DecodeAll(BlockLogs(h.(rest := rest))));
  }

  // ---- Chains of blocks ----

  /** Numbers count up by one along the parents, from genesis. */
  predicate Linked(h: Hash) {
    h.Hash? ==>
      if h.number == 0 then h.parent == NoHash else h.parent.Hash? && h.parent.number == h.number - 1 && Linked(h.parent)
  }

  ghost predicate ValidChain(h: Hash) {
    h.Hash? ==> ValidBlock(h) && ValidChain(h.parent)
  }

  function Number(h: Hash): int {
    if h.Hash? then h.number else -1
  }

  /** The block of this number on the chain of a tip, or NoHash before genesis. */
  function At(tip: Hash, n: int): Hash {
    if tip.Hash? && tip.number > n then At(tip.parent, n) else tip
  }

  lemma {:induction false} AtNumber(tip: Hash, n: int)
    requires Linked(tip) && -1 <= n <= Number(tip)
    ensures Number(At(tip, n)) == n && Linked(At(tip, n))
  {
    if tip.Hash? && tip.number > n { AtNumber(tip.parent, n); }
  }

  lemma {:induction false} AtAt(tip: Hash, m: int, n: int)
    requires Linked(tip) && -1 <= n <= m <= Number(tip)
    ensures At(At(tip, m), n) == At(tip, n)
  {
    if tip.Hash? && tip.number > m { AtAt(tip.parent, m, n); }
  }

  lemma {:induction false} AtValid(tip: Hash, n: int)
    requires ValidChain(tip)
    ensures ValidChain(At(tip, n))
  {
    if tip.Hash? && tip.number > n { AtValid(tip.parent, n); }
  }

  /** The events of the blocks above the anchor, oldest first. */
  function Past(tip: Hash, anchor: int): seq<Event> {
    if tip.Hash? && tip.number > anchor then Past(tip.parent, anchor) + BlockEvents(tip) else []
  }

  // ---- The events of a valid block ----

  lemma BlockEventsMeaning(h: Hash)
    requires ValidBlock(h)
    ensures R.Correlate(DecodeAll(BlockLogs(h))) == Ok(BlockEvents(h))
    ensures |BlockEvents(h)| == |h.logs|
    ensures forall i :: 0 <= i < |h.logs| ==>
              BlockEvents(h)[i].log == LogId(h, h.logs[i].txHash, h.logs[i].logIndex) && BlockEvents(h)[i].block == h.number && Decoded(BlockEvents(h)[i])
    ensures forall e :: e in BlockEvents(h) && e.kind == WinningTicketRedeemed ==> e.settlement.Some? && SplitOk(e.settlement.value)
  {
    var events := DecodeAll(BlockLogs(h));
    R.CorrelateIffGrammar(events);
    R.ScanOutputs(events, None, None);
    R.RedemptionsSplit(events);
    forall i | 0 <= i < |h.logs|
      ensures BlockEvents(h)[i].log == LogId(h, h.logs[i].txHash, h.logs[i].logIndex) && BlockEvents(h)[i].block == h.number && Decoded(BlockEvents(h)[i])
    {
      assert R.Corresponds(events[i], BlockEvents(h)[i]);
    }
  }

  lemma BlockInOrder(h: Hash)
    requires ValidBlock(h)
    ensures InOrder(BlockEvents(h))
    ensures forall e :: e in BlockEvents(h) ==> e.block == h.number && e.log.blockHash == h && Decoded(e)
  {
    BlockEventsMeaning(h);
    hide BlockEvents;
  }

  lemma {:induction false} PastBlocks(tip: Hash, anchor: int)
    requires Linked(tip) && ValidChain(tip)
    ensures forall e :: e in Past(tip, anchor) ==> anchor < e.block <= Number(tip) && Decoded(e) && e.log.blockHash == At(tip, e.block)
    ensures InOrder(Past(tip, anchor))
  {
    if tip.Hash? && tip.number > anchor {
      PastBlocks(tip.parent, anchor);
      BlockInOrder(tip);
      var front, last := Past(tip.parent, anchor), BlockEvents(tip);
      hide BlockEvents, ValidBlock, Decoded;
      forall e | e in front ensures e.log.blockHash == At(tip, e.block) { assert e.block < tip.number; }
      forall i, j | 0 <= i < j < |front + last| ensures Before((front + last)[i], (front + last)[j]) {
        if j < |front| {
          assert Before(front[i], front[j]);
        } else if i < |front| {
          assert front[i] in front && last[j - |front|] in last;
        } else {
          assert Before(last[i - |front|], last[j - |front|]);
        }
      }
    }
  }

  /** Cutting a history at a block number is the history of the block there. */
  lemma {:induction false} PastUpto(tip: Hash, anchor: int, n: int)
    requires Linked(tip) && ValidChain(tip) && anchor <= n <= Number(tip)
    ensures Upto(Past(tip, anchor), n) == Past(At(tip, n), anchor)
  {
    if tip.Hash? && tip.number > n {
      PastUpto(tip.parent, anchor, n);
      BlockInOrder(tip);
      hide BlockEvents, ValidBlock, Decoded, InOrder;
      UptoDropsBlock(Past(tip.parent, anchor), BlockEvents(tip), n);
    } else {
      PastBlocks(tip, anchor);
      AllUpto(Past(tip, anchor), n);
    }
  }

  lemma {:induction false} UptoDropsBlock(front: seq<Event>, last: seq<Event>, n: int)
    requires forall e :: e in last ==> e.block > n
    ensures Upto(front + last, n) == Upto(front, n)
  {
    if last == [] {
      assert front + last == front;
    } else {
      var whole := front + last;
      assert whole[|whole| - 1] == last[|last| - 1] && last[|last| - 1] in last;
      assert whole[..|whole| - 1] == front + last[..|last| - 1];
      UptoDropsBlock(front, last[..|last| - 1], n);
    }
  }

  lemma AllUpto(history: seq<Event>, n: int)
    requires forall e :: e in history ==> e.block <= n
    ensures Upto(history, n) == history
  {
    if history != [] { assert history[|history| - 1] in history; }
  }

  // ---- Batches ----

  /** The blocks after a tip up to another, oldest first. */
  function Segment(tip: Hash, from: int): (hashes: seq<Hash>)
    ensures forall i :: 0 <= i < |hashes| ==> hashes[i].Hash?
  {
    if tip.Hash? && tip.number > from then Segment(tip.parent, from) + [tip] else []
  }

  function LogsOf(hashes: seq<Hash>): (logs: seq<Log>)
    requires forall i :: 0 <= i < |hashes| ==> hashes[i].Hash?
    ensures FromBlocks(logs)
  {
    if hashes == [] then [] else LogsOf(hashes[..|hashes| - 1]) + BlockLogs(hashes[|hashes| - 1])
  }

  function EventsOf(hashes: seq<Hash>): seq<Event>
    requires forall i :: 0 <= i < |hashes| ==> hashes[i].Hash?
  {
    if hashes == [] then [] else EventsOf(hashes[..|hashes| - 1]) + BlockEvents(hashes[|hashes| - 1])
  }

  lemma DecodeConcat(a: seq<Log>, b: seq<Log>)
    requires FromBlocks(a) && FromBlocks(b)
    ensures DecodeAll(a + b) == DecodeAll(a) + DecodeAll(b)
  {
  }

  /** A batch of valid blocks correlates block by block. */
  lemma {:induction false} BatchCorrelates(hashes: seq<Hash>)
    requires forall i :: 0 <= i < |hashes| ==> hashes[i].Hash? && ValidBlock(hashes[i])
    ensures R.Correlate(DecodeAll(LogsOf(hashes))) == Ok(EventsOf(hashes))
  {
    if hashes != [] {
      var front, last := hashes[..|hashes| - 1], hashes[|hashes| - 1];
      BatchCorrelates(front);
      BlockEventsMeaning(last);
      DecodeConcat(LogsOf(front), BlockLogs(last));
      R.CorrelateConcat(DecodeAll(LogsOf(front)), DecodeAll(BlockLogs(last)), None, None);
    }
  }

  lemma {:induction false} SegmentMeaning(tip: Hash, from: int)
    requires Linked(tip) && -1 <= from <= Number(tip)
    ensures |Segment(tip, from)| == Number(tip) - from
    ensures forall i :: 0 <= i < |Segment(tip, from)| ==> Segment(tip, from)[i].Hash? && Segment(tip, from)[i] == At(tip, from + 1 + i)
  {
    if tip.Hash? && tip.number > from {
      SegmentMeaning(tip.parent, from);
      var front := Segment(tip.parent, from);
      hide Segment, Linked;
      forall i | 0 <= i < |front + [tip]| ensures (front + [tip])[i].Hash? && (front + [tip])[i] == At(tip, from + 1 + i) {
        if i < |front| { assert (front + [tip])[i] == front[i]; }
      }
    }
  }

  lemma {:induction false} PastExtends(tip: Hash, from: int, anchor: int)
    requires Linked(tip) && -1 <= anchor <= from <= Number(tip)
    ensures Past(tip, anchor) == Past(At(tip, from), anchor) + EventsOf(Segment(tip, from))
  {
    hide BlockEvents, EventsOf;
    SegmentMeaning(tip, from);
    if tip.Hash? && tip.number > from {
      PastExtends(tip.parent, from, anchor);
      EventsSnoc(Segment(tip.parent, from), tip);
    } else {
      EventsNone();
      assert Past(tip, anchor) + [] == Past(tip, anchor);
    }
  }

  lemma EventsNone()
    ensures EventsOf([]) == []
  {
  }

  lemma EventsSnoc(hashes: seq<Hash>, h: Hash)
    requires h.Hash? && forall i :: 0 <= i < |hashes| ==> hashes[i].Hash?
    ensures forall i :: 0 <= i < |hashes + [h]| ==> (hashes + [h])[i].Hash?
    ensures EventsOf(hashes + [h]) == EventsOf(hashes) + BlockEvents(h)
  {
    hide BlockEvents;
    assert (hashes + [h])[..|hashes|] == hashes;
  }
}

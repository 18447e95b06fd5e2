/**
 * Where the rows come from: every stored event and settlement is one log of the block its
 * identity names, told in that log's own fields (decoding, internal/chain/listener.go:578-682,
 * correlation and internal/store/settlements.go:117-325 together); and the logs a batch
 * decodes are answered ones of the fetched blocks.
 */
module Provenance {
  import opened Blocks
  import opened Tables
  import opened EscrowStore
  import opened History
  import opened LogOrder
  import opened Listener
  import R = Redemptions
  import P = Payments

  // ---- From logs to events ----

  /** What a log's event says before its payment is known: which fields it carries depends on its type. */
  predicate Carries(e: Event, h: Hash, raw: RawLog)
    requires h.Hash?
  {
    && e.kind == raw.kind && e.sender == raw.sender && e.log == LogId(h, raw.txHash, raw.logIndex) && e.block == h.number
    && e.recipient == (if raw.kind in {ReserveClaimed, WinningTicketTransfer, WinningTicketRedeemed} then raw.recipient else "")
    && e.amount == (if raw.kind == Withdrawal then 0 else raw.amount)
    && (raw.kind == Withdrawal ==> e.depositAmount == raw.depositAmount && e.reserveAmount == raw.reserveAmount)
    && (raw.kind != Withdrawal && raw.kind != WinningTicketRedeemed ==> e.depositAmount == 0 && e.reserveAmount == 0)
    && (e.settlement.Some? <==> raw.kind == WinningTicketRedeemed)
  }

  lemma DecodeCarries(l: Log)
    requires l.block.Hash?
    ensures Carries(Decode(l), l.block, l.raw)
    ensures l.raw.kind == WinningTicketRedeemed ==>
              var s := Decode(l).settlement.value;
              s.log == LogId(l.block, l.raw.txHash, l.raw.logIndex) && s.block == l.block.number && s.face == l.raw.amount &&
              s.ticket == l.raw.ticket && s.sender == l.raw.sender && s.recipient == l.raw.recipient
  {
  }

  predicate TransferLog(h: Hash, i: nat)
    requires h.Hash? && i <= |h.logs|
  {
    i > 0 && h.logs[i - 1].kind == WinningTicketTransfer
  }

  predicate ClaimLog(h: Hash, i: nat)
    requires h.Hash? && i <= |h.logs|
  {
    i > 1 && TransferLog(h, i) && h.logs[i - 2].kind == ReserveClaimed
  }

  /** A redemption's payment: what the transfer log before it moved, of which the claim log before that came out of the reserve. */
  predicate PaysOut(s: Settlement, h: Hash, i: nat)
    requires h.Hash? && i < |h.logs|
  {
    && s.log == LogId(h, h.logs[i].txHash, h.logs[i].logIndex) && s.block == h.number
    && s.sender == h.logs[i].sender && s.recipient == h.logs[i].recipient && s.ticket == h.logs[i].ticket
    && s.face == h.logs[i].amount
    && s.paid == (if TransferLog(h, i) then h.logs[i - 1].amount else 0)
    && s.reservePaid == (if ClaimLog(h, i) then h.logs[i - 2].amount else 0)
    && s.depositPaid == s.paid - s.reservePaid
  }

  /** The i-th event of a block is its i-th log, with the payment the logs before it tell. */
  lemma BlockEventTells(h: Hash, i: nat)
    requires ValidBlock(h) && i < |h.logs|
    ensures |BlockEvents(h)| == |h.logs|
    ensures var e := BlockEvents(h)[i];
            && Carries(e, h, h.logs[i])
            && (e.kind == WinningTicketRedeemed ==>
                  PaysOut(e.settlement.value, h, i) && e.depositAmount == e.settlement.value.depositPaid && e.reserveAmount == e.settlement.value.reservePaid)
  {
    hide *;
    ValidIsBlock(h);
    BlockEventsMeaning(h);
    var events := DecodeAll(BlockLogs(h));
    P.OutputsExplained(events);
    forall j | 0 <= j <= i ensures events[j] == Decode(Log(h, h.logs[j])) { assert BlockLogs(h)[j] == Log(h, h.logs[j]); }
    DecodeCarries(Log(h, h.logs[i]));
    assert P.Explained(events, i, BlockEvents(h)[i]);
    if i > 0 { DecodeCarries(Log(h, h.logs[i - 1])); }
    if i > 1 { DecodeCarries(Log(h, h.logs[i - 2])); }
    Paid(events, h, i, BlockEvents(h)[i]);
  }

  lemma ValidIsBlock(h: Hash)
    requires ValidBlock(h)
    ensures h.Hash?
  {
  }

  lemma Paid(events: seq<Event>, h: Hash, i: nat, out: Event)
    requires h.Hash? && i < |h.logs| && i < |events| && P.Explained(events, i, out) && Carries(events[i], h, h.logs[i])
    requires h.logs[i].kind == WinningTicketRedeemed ==>
               && var s := events[i].settlement.value;
               && s.log == LogId(h, h.logs[i].txHash, h.logs[i].logIndex) && s.block == h.number
               && s.face == h.logs[i].amount && s.ticket == h.logs[i].ticket && s.sender == h.logs[i].sender && s.recipient == h.logs[i].recipient
    requires i > 0 ==> Carries(events[i - 1], h, h.logs[i - 1])
    requires i > 1 ==> Carries(events[i - 2], h, h.logs[i - 2])
    ensures Carries(out, h, h.logs[i])
    ensures out.kind == WinningTicketRedeemed ==>
              PaysOut(out.settlement.value, h, i) && out.depositAmount == out.settlement.value.depositPaid && out.reserveAmount == out.settlement.value.reservePaid
  {
  }

  // ---- From events to rows ----

  /** The row of an event is that of the i-th log of its block. */
  predicate RowOfLog(id: LogId, row: EventRow, i: nat)
    requires id.blockHash.Hash? && i < |id.blockHash.logs|
  {
    var h, raw, d := id.blockHash, id.blockHash.logs[i], row.data;
    && id == LogId(h, raw.txHash, raw.logIndex)
    && d.kind == raw.kind && d.sender == raw.sender && d.block == h.number
    && d.recipient == (if raw.kind in {ReserveClaimed, WinningTicketTransfer, WinningTicketRedeemed} then raw.recipient else "")
    && d.amount == (if raw.kind == Withdrawal then 0 else raw.amount)
    && (raw.kind == Withdrawal ==> d.depositAmount == raw.depositAmount && d.reserveAmount == raw.reserveAmount)
  }

  predicate SettlementOfLog(id: LogId, row: SettlementRow, i: nat)
    requires id.blockHash.Hash? && i < |id.blockHash.logs|
  {
    var h, raw, d := id.blockHash, id.blockHash.logs[i], row.data;
    && id == LogId(h, raw.txHash, raw.logIndex) && raw.kind == WinningTicketRedeemed
    && d.sender == raw.sender && d.recipient == raw.recipient && d.block == h.number && d.ticket == raw.ticket && d.face == raw.amount
    && d.paid == (if TransferLog(h, i) then h.logs[i - 1].amount else 0)
    && d.reservePaid == (if ClaimLog(h, i) then h.logs[i - 2].amount else 0)
    && d.depositPaid == d.paid - d.reservePaid
  }

  /** In every synchronized state each row is a log of its block. */
  lemma RowsAreLogs(db: DB, stream: Id, anchor: int, at: Checkpoint, id: LogId)
    requires Synced(db, stream, anchor, at)
    ensures id in db.escrow.events ==>
              id.blockHash.Hash? && exists i :: 0 <= i < |id.blockHash.logs| && RowOfLog(id, db.escrow.events[id], i)
    ensures id in db.escrow.settlements ==>
              id.blockHash.Hash? && exists i :: 0 <= i < |id.blockHash.logs| && SettlementOfLog(id, db.escrow.settlements[id], i)
  {
    hide *;
    FromChain(db, stream, anchor, at);
    EventRowIsLog(db.escrow, id);
    SettlementRowIsLog(db.escrow, id);
  }

  lemma FromChain(db: DB, stream: Id, anchor: int, at: Checkpoint)
    requires Synced(db, stream, anchor, at)
    ensures RowsFromChain(db.escrow)
  {
    hide RowsFromChain;
  }

  lemma EventRowIsLog(e: Escrow, id: LogId)
    requires RowsFromChain(e)
    ensures id in e.events ==> id.blockHash.Hash? && exists i :: 0 <= i < |id.blockHash.logs| && RowOfLog(id, e.events[id], i)
  {
    hide *;
    if id in e.events {
      var ev := EventOf(e, id);
      var i := IndexOf(id.blockHash, ev);
      BlockEventTells(id.blockHash, i);
      RowTold(id, e.events[id], ev, i);
    }
  }

  lemma SettlementRowIsLog(e: Escrow, id: LogId)
    requires RowsFromChain(e)
    ensures id in e.settlements ==> id.blockHash.Hash? && exists i :: 0 <= i < |id.blockHash.logs| && SettlementOfLog(id, e.settlements[id], i)
  {
    hide *;
    if id in e.settlements {
      var ev := RedemptionOf(e, id);
      var i := IndexOf(id.blockHash, ev);
      BlockEventTells(id.blockHash, i);
      SettlementTold(id, e.settlements[id], ev, i);
    }
  }

  lemma EventOf(e: Escrow, id: LogId) returns (ev: Event)
    requires RowsFromChain(e) && id in e.events
    ensures ValidBlock(id.blockHash) && ev in BlockEvents(id.blockHash) && ev.log == id && e.events[id].data == EventDataOf(ev)
  {
    hide ValidBlock, BlockEvents, EventDataOf, SettlementDataOf;
    ev :| ev in BlockEvents(id.blockHash) && ev.log == id && e.events[id].data == EventDataOf(ev);
  }

  lemma RedemptionOf(e: Escrow, id: LogId) returns (ev: Event)
    requires RowsFromChain(e) && id in e.settlements
    ensures ValidBlock(id.blockHash) && ev in BlockEvents(id.blockHash) && ev.log == id
    ensures ev.settlement.Some? && e.settlements[id].data == SettlementDataOf(ev.settlement.value)
  {
    hide ValidBlock, BlockEvents, EventDataOf, SettlementDataOf;
    ev :| ev in BlockEvents(id.blockHash) && ev.log == id && ev.settlement.Some? && e.settlements[id].data == SettlementDataOf(ev.settlement.value);
  }

  lemma IndexOf(h: Hash, ev: Event) returns (i: nat)
    requires ValidBlock(h) && ev in BlockEvents(h)
    ensures h.Hash? && i < |h.logs| && |BlockEvents(h)| == |h.logs| && BlockEvents(h)[i] == ev
  {
    BlockEventsMeaning(h);
    hide BlockEvents, R.Grammar;
    var k :| 0 <= k < |BlockEvents(h)| && BlockEvents(h)[k] == ev;
    i := k;
  }

  lemma RowTold(id: LogId, row: EventRow, ev: Event, i: nat)
    requires id.blockHash.Hash? && i < |id.blockHash.logs| && Carries(ev, id.blockHash, id.blockHash.logs[i])
    requires ev.log == id && row.data == EventDataOf(ev)
    ensures RowOfLog(id, row, i)
  {
  }

  lemma SettlementTold(id: LogId, row: SettlementRow, ev: Event, i: nat)
    requires id.blockHash.Hash? && i < |id.blockHash.logs| && Carries(ev, id.blockHash, id.blockHash.logs[i]) && ev.settlement.Some?
    requires ev.kind == WinningTicketRedeemed ==> PaysOut(ev.settlement.value, id.blockHash, i)
    requires ev.log == id && row.data == SettlementDataOf(ev.settlement.value)
    ensures SettlementOfLog(id, row, i)
  {
  }

  // ---- The answers a batch accepts ----

  /** An answer that is not removed, of the fetched block of its number. */
  predicate OfFetched(x: Answer, hashes: seq<Hash>, next: int) {
    !x.removed && next <= x.number < next + |hashes| && x.log.block.Hash? && hashes[x.number - next] == x.log.block
  }

  lemma {:induction false} AdmittedOnly(answers: seq<Answer>, hashes: seq<Hash>, next: int)
    requires Admit(answers, hashes, next).Ok?
    ensures var logs := Admit(answers, hashes, next).value;
            |logs| == |answers| && forall i :: 0 <= i < |answers| ==> logs[i] == answers[i].log && OfFetched(answers[i], hashes, next)
  {
    if answers != [] {
      AdmittedOnly(answers[..|answers| - 1], hashes, next);
    }
  }

  lemma {:induction false} UniqueSame(s: seq<Answer>)
    requires Unique(s).Ok?
    ensures forall x :: x in Unique(s).value <==> x in s
  {
    if s != [] {
      var front, x := s[..|s| - 1], s[|s| - 1];
      UniqueSame(front);
      assert s == front + [x];
      var kept := Unique(front).value;
      if kept != [] { assert kept[|kept| - 1] in kept; }
    }
  }

  /**
   * Whatever the RPC answers: a batch goes on only if no answer was removed and each is of
   * the fetched block of its number, and then it decodes exactly the answered logs.
   */
  lemma OnlyFetchedLogs(answers: seq<Answer>, hashes: seq<Hash>, next: int)
    requires Gather(answers, hashes, next).Ok?
    ensures forall x :: x in answers ==> OfFetched(x, hashes, next)
    ensures forall l :: l in Gather(answers, hashes, next).value <==> exists x :: x in answers && x.log == l
  {
    hide Admit, Unique, OfFetched;
    var s := Sorted(answers);
    forall x ensures x in s <==> x in answers {
      assert x in s <==> x in multiset(s);
      assert x in answers <==> x in multiset(answers);
    }
    UniqueSame(s);
    var kept := Unique(s).value;
    AdmittedOnly(kept, hashes, next);
    var logs := Gather(answers, hashes, next).value;
    forall l | l in logs ensures exists x :: x in answers && x.log == l {
      var i :| 0 <= i < |logs| && logs[i] == l;
      assert kept[i] in kept;
      assert kept[i] in answers && kept[i].log == l;
    }
    forall x | x in answers ensures OfFetched(x, hashes, next) && x.log in logs {
      assert x in kept;
      var i :| 0 <= i < |kept| && kept[i] == x;
      assert logs[i] == x.log;
    }
  }

  // ---- Conflicting answers ----

  /** Two different answers about one log of one transaction of one block. */
  predicate Conflict(x: Answer, y: Answer) {
    && x != y && x.log.block == y.log.block && x.log.raw.txHash == y.log.raw.txHash && x.log.raw.logIndex == y.log.raw.logIndex
  }

  /** Same block number and log index. */
  predicate SamePlace(x: Answer, y: Answer) {
    x.number == y.number && x.log.raw.logIndex == y.log.raw.logIndex
  }

  /** Every answer at the place of x is about the log that x is about. */
  predicate OnePlace(answers: seq<Answer>, x: Answer) {
    forall z :: z in answers && SamePlace(x, z) ==>
      z.log.block == x.log.block && z.log.raw.txHash == x.log.raw.txHash && z.log.raw.logIndex == x.log.raw.logIndex
  }

  lemma {:induction false} UniqueError(s: seq<Answer>)
    requires Unique(s).Err?
    ensures exists x, y :: x in s && y in s && Conflict(x, y)
  {
    var front, last := s[..|s| - 1], s[|s| - 1];
    assert s == front + [last];
    if Unique(front).Err? {
      UniqueError(front);
      var x, y :| x in front && y in front && Conflict(x, y);
      assert x in s && y in s;
    } else {
      UniqueSame(front);
      var kept := Unique(front).value;
      var x := kept[|kept| - 1];
      assert x in kept;
      assert x in s && last in s && Conflict(x, last);
    }
  }

  /** What is kept is in order, with no two neighbours of one identity. */
  lemma {:induction false} KeptApart(s: seq<Answer>)
    requires Ordered(s) && Unique(s).Ok?
    ensures var kept := Unique(s).value;
            Ordered(kept) && forall i :: 0 < i < |kept| ==> !SameIdentity(kept[i - 1], kept[i])
  {
    if s != [] {
      var front, last := s[..|s| - 1], s[|s| - 1];
      KeptApart(front);
      UniqueSame(front);
      var kept := Unique(front).value;
      forall i | 0 <= i < |kept| ensures NotAfter(kept[i], last) {
        assert kept[i] in front;
        var j :| 0 <= j < |front| && front[j] == kept[i];
        assert s[j] == kept[i];
      }
      hide SameIdentity, NotAfter;
    }
  }

  /**
   * The filter refuses answers only over a real conflict, and finds any conflict whose
   * place no other log claims.
   */
  lemma ConflictsFound(answers: seq<Answer>, x: Answer, y: Answer)
    ensures OrderedUnique(answers).Err? ==> OrderedUnique(answers).error == ConflictingLogs && exists a, b :: a in answers && b in answers && Conflict(a, b)
    ensures x in answers && y in answers && Conflict(x, y) && SamePlace(x, y) && OnePlace(answers, x) ==> OrderedUnique(answers).Err?
  {
    hide Unique, Conflict;
    var s := Sorted(answers);
    forall z ensures z in s <==> z in answers {
      assert z in s <==> z in multiset(s);
      assert z in answers <==> z in multiset(answers);
    }
    if Unique(s).Err? {
      UniqueError(s);
      OnlyConflicts(s);
    } else if x in answers && y in answers && Conflict(x, y) && SamePlace(x, y) && OnePlace(answers, x) {
      KeptTogether(s, x, y);
    }
  }

  lemma {:induction false} OnlyConflicts(s: seq<Answer>)
    requires Unique(s).Err?
    ensures Unique(s).error == ConflictingLogs
  {
    if Unique(s[..|s| - 1]).Err? { OnlyConflicts(s[..|s| - 1]); }
  }

  lemma KeptTogether(s: seq<Answer>, x: Answer, y: Answer)
    requires Ordered(s) && x in s && y in s && Conflict(x, y) && SamePlace(x, y) && OnePlace(s, x)
    ensures Unique(s).Err?
  {
    if Unique(s).Ok? {
      UniqueSame(s);
      KeptApart(s);
      hide Unique;
      NeighboursAgree(Unique(s).value, x, y);
      assert false;
    }
  }

  /** Between two answers of one place all are of that place. */
  lemma NeighboursAgree(kept: seq<Answer>, x: Answer, y: Answer)
    requires Ordered(kept) && x in kept && y in kept && x != y && SamePlace(x, y) && OnePlace(kept, x)
    ensures exists i :: 0 < i < |kept| && SameIdentity(kept[i - 1], kept[i])
  {
    var i :| 0 <= i < |kept| && kept[i] == x;
    var j :| 0 <= j < |kept| && kept[j] == y;
    var a, b := if i < j then i else j, if i < j then j else i;
    assert kept[a] in kept && kept[a + 1] in kept;
    assert SamePlace(x, kept[a]);
    assert NotAfter(kept[a], kept[a + 1]) && (a + 1 == b || NotAfter(kept[a + 1], kept[b]));
    assert SamePlace(x, kept[a + 1]);
    assert SameIdentity(kept[(a + 1) - 1], kept[a + 1]);
  }
}

/**
 * Every in-order batch extends the replayed history and every rewind cuts it back; no
 * posting of a rewind takes an escrow balance below zero.
 */
module ReplaySteps {
  import opened Blocks
  import opened Tables
  import opened Books
  import opened Attribution
  import opened EscrowStore
  import opened EscrowLedger
  import opened EscrowSteps
  import opened Reorgs
  import opened Rewinds
  import opened Replay

  // ---- Batches extend the history ----

  /** The store accepts a new event exactly when the replay does, identities permitting. */
  lemma AcceptedIsTurn(db: DB, e: Event)
    requires AgreeOk(db.escrow) && Decoded(e) && SameEvent(db, e) && !AlreadyCanonical(db, e)
    requires e.kind == WinningTicketRedeemed && e.settlement.Some? ==> SameSettlement(db, e.settlement.value)
    ensures Applicable(db, e) <==> Turn(HeldPool(db, e.sender), e, e.sender).Ok?
  {
    hide Held;
    if e.kind == WinningTicketRedeemed && e.settlement.Some? { NotYetSettled(db, e); }
  }

  lemma NotInHistory(e: Escrow, history: seq<Event>, ev: Event)
    requires HistoryOf(e, history) && InOrder(history + [ev]) && (ev.log in e.events ==> e.events[ev.log].data == EventDataOf(ev))
    ensures !InHistory(history, ev.log)
    ensures ev.log in e.events ==> !e.events[ev.log].canonical
  {
    var next := history + [ev];
    forall i | 0 <= i < |history| ensures history[i].log != ev.log {
      assert next[i] == history[i] && next[|history|] == ev;
      assert Recorded(e, history[i]);
      assert Before(next[i], next[|history|]);
    }
  }

  lemma HistoryExtended(db: DB, db': DB, history: seq<Event>, e: Event)
    requires HistoryOf(db.escrow, history) && Decoded(e) && SameEvent(db, e) && !AlreadyCanonical(db, e) && !InHistory(history, e.log)
    requires db'.escrow.events == db.escrow.events[e.log := NextEvent(db, e)]
    requires e.kind == WinningTicketRedeemed ==>
               e.settlement.Some? && SameSettlement(db, e.settlement.value) && db'.escrow.settlements == SettledRows(db, e.settlement.value)
    requires e.kind != WinningTicketRedeemed ==> db'.escrow.settlements == db.escrow.settlements
    ensures HistoryOf(db'.escrow, history + [e])
  {
    hide WantedMatch, SessionsFor;
    var next := history + [e];
    forall i | 0 <= i < |next| ensures Recorded(db'.escrow, next[i]) {
      if i < |history| {
        assert Recorded(db.escrow, history[i]);
        assert history[i].log != e.log;
      }
    }
    forall id | id in db'.escrow.events && db'.escrow.events[id].canonical ensures InHistory(next, id) {
      if id == e.log {
        assert next[|history|].log == id;
      } else {
        assert InHistory(history, id);
        var i :| 0 <= i < |history| && history[i].log == id;
        assert next[i].log == id;
      }
    }
  }

  lemma FoldExtended(db: DB, e': Escrow, history: seq<Event>, e: Event)
    requires SumsOk(db) && AgreeOk(db.escrow) && Replays(db.escrow, history) && e'.snapshots == db.escrow.snapshots
    requires Turn(HeldPool(db, e.sender), e, e.sender).Ok?
    ensures FoldsOk(e', history + [e])
  {
    hide HistoryOf, InOrder, AgreeOk, SumsOk, HeldPool;
    var next := history + [e];
    assert next[..|next| - 1] == history;
    forall sender ensures Fold(OpeningPool(e', sender), next, sender).Ok? {
      BalancesAreReplayed(db, history, sender);
      assert OpeningPool(e', sender) == OpeningPool(db.escrow, sender);
    }
  }

  lemma ApplyEventReplays(db: DB, history: seq<Event>, e: Event)
    requires EscrowInv(db) && Replays(db.escrow, history) && Decoded(e) && InOrder(history + [e])
    requires ApplyEvent(db, e).Ok?
    ensures EscrowInv(ApplyEvent(db, e).value) && Replays(ApplyEvent(db, e).value.escrow, history + [e])
  {
    ApplyEventKeeps(db, e);
    hide ApplyEvent, AccountsOk, FoldsOk, Turn, AgreeOk;
    var db' := ApplyEvent(db, e).value;
    NotInHistory(db.escrow, history, e);
    if e.kind == WinningTicketRedeemed { assert Redeemable(db, e.settlement.value); }
    AcceptedIsTurn(db, e);
    HistoryExtended(db, db', history, e);
    InvParts(db);
    FoldExtended(db, db'.escrow, history, e);
  }

  lemma InvParts(db: DB)
    requires EscrowInv(db)
    ensures SumsOk(db) && AgreeOk(db.escrow)
  {
  }

  lemma {:induction false} ApplyEventsReplay(db: DB, history: seq<Event>, events: seq<Event>)
    requires EscrowInv(db) && Replays(db.escrow, history) && InOrder(history + events)
    requires forall e :: e in events ==> Decoded(e)
    requires ApplyEvents(db, events).Ok?
    ensures EscrowInv(ApplyEvents(db, events).value) && Replays(ApplyEvents(db, events).value.escrow, history + events)
  {
    hide EscrowInv, Replays, ApplyEvent;
    if events == [] {
      assert history + events == history;
    } else {
      var front, last := events[..|events| - 1], events[|events| - 1];
      assert history + events == history + front + [last];
      assert forall i :: 0 <= i < |history + front| ==> (history + front)[i] == (history + events)[i];
      assert last in events;
      ApplyEventsReplay(db, history, front);
      ApplyEventReplays(ApplyEvents(db, front).value, history + front, last);
    }
  }

  lemma ReplaysFrame(e: Escrow, e': Escrow, history: seq<Event>)
    requires Replays(e, history) && e'.snapshots == e.snapshots && e'.events == e.events && e'.settlements == e.settlements
    ensures Replays(e', history)
  {
    forall sender ensures Fold(OpeningPool(e', sender), history, sender).Ok? {
      assert OpeningPool(e', sender) == OpeningPool(e, sender);
    }
    forall i | 0 <= i < |history| ensures Recorded(e', history[i]) { assert Recorded(e, history[i]); }
  }

  /** An accepted in-order batch extends the replayed history by its events. */
  lemma ApplyChainReplays(db: DB, history: seq<Event>, stream: Id, blocks: seq<Block>, events: seq<Event>, lookback: int)
    requires EscrowInv(db) && Replays(db.escrow, history) && InOrder(history + events)
    requires forall e :: e in events ==> Decoded(e)
    requires ApplyChain(db, stream, blocks, events, lookback).Ok?
    ensures var db' := ApplyChain(db, stream, blocks, events, lookback).value;
            EscrowInv(db') && Replays(db'.escrow, history + events)
  {
    hide EscrowInv, Replays, ApplyEvents, PutBlocks;
    var c := Chain(PutBlocks(ChainOf(db, stream).blocks, blocks), ChainOf(db, stream).checkpoint);
    var db1 := WithChain(db, stream, c);
    ChainFrame(db, stream, c);
    ReplaysFrame(db.escrow, db1.escrow, history);
    ApplyEventsReplay(db1, history, events);
    var db2 := ApplyEvents(db1, events).value;
    var db' := ApplyChain(db, stream, blocks, events, lookback).value;
    ChainFrame(db2, stream, db'.escrow.chains[stream]);
    ReplaysFrame(db2.escrow, db'.escrow, history + events);
  }

  // ---- Rewinds cut the history ----

  function Upto(history: seq<Event>, after: int): seq<Event> {
    if history == [] || history[|history| - 1].block <= after then history
    else Upto(history[..|history| - 1], after)
  }

  lemma {:induction false} UptoPrefix(history: seq<Event>, after: int)
    requires InOrder(history)
    ensures |Upto(history, after)| <= |history| && Upto(history, after) == history[..|Upto(history, after)|]
    ensures forall i :: 0 <= i < |history| ==> (history[i].block <= after <==> i < |Upto(history, after)|)
  {
    if history == [] {
    } else if history[|history| - 1].block <= after {
      forall i | 0 <= i < |history| ensures history[i].block <= after {
        if i < |history| - 1 { assert Before(history[i], history[|history| - 1]); }
      }
    } else {
      UptoPrefix(history[..|history| - 1], after);
    }
  }

  lemma PrefixHistory(e: Escrow, e': Escrow, history: seq<Event>, n: nat)
    requires HistoryOf(e, history) && n <= |history|
    requires forall i :: 0 <= i < n ==> Recorded(e', history[i])
    requires forall id :: id in e'.events && e'.events[id].canonical ==>
               id in e.events && e.events[id].canonical && forall i :: n <= i < |history| ==> history[i].log != id
    ensures HistoryOf(e', history[..n])
  {
    forall id | id in e'.events && e'.events[id].canonical ensures InHistory(history[..n], id) {
      assert InHistory(history, id);
      var i :| 0 <= i < |history| && history[i].log == id;
      assert history[..n][i].log == id;
    }
  }

  lemma RewoundHistory(e: Escrow, history: seq<Event>, after: int)
    requires HistoryOf(e, history) && InOrder(history)
    ensures HistoryOf(RewoundRows(e, after), Upto(history, after))
  {
    UptoPrefix(history, after);
    var n := |Upto(history, after)|;
    var e' := RewoundRows(e, after);
    forall i | 0 <= i < n ensures Recorded(e', history[i]) { assert Recorded(e, history[i]); }
    forall id | id in e'.events && e'.events[id].canonical
      ensures forall i :: n <= i < |history| ==> history[i].log != id
    {
      forall i | n <= i < |history| ensures history[i].log != id { assert Recorded(e, history[i]); }
    }
    PrefixHistory(e, e', history, n);
  }

  lemma FoldsPrefix(e: Escrow, e': Escrow, history: seq<Event>, n: nat)
    requires FoldsOk(e, history) && n <= |history| && e'.snapshots == e.snapshots
    ensures FoldsOk(e', history[..n])
  {
    forall sender ensures Fold(OpeningPool(e', sender), history[..n], sender).Ok? {
      assert OpeningPool(e', sender) == OpeningPool(e, sender);
      FoldPrefix(OpeningPool(e, sender), history, sender, n);
    }
  }

  /** A rewind leaves the replay of the events up to the ancestor, however often blocks come and go. */
  lemma RewindReplays(db: DB, history: seq<Event>, stream: Id, ancestor: Block, settlements: seq<LogId>, events: seq<LogId>)
    requires EscrowInv(db) && Replays(db.escrow, history)
    requires ListsSettlements(db, settlements, ancestor.number) && ListsEvents(db, events, ancestor.number)
    requires Rewind(db, stream, ancestor, settlements, events).Ok?
    ensures var db' := Rewind(db, stream, ancestor, settlements, events).value;
            EscrowInv(db') && Replays(db'.escrow, Upto(history, ancestor.number))
  {
    RewindKeeps(db, stream, ancestor, settlements, events);
    hide EscrowInv, Rewind, ListsSettlements, ListsEvents, FoldsOk, HistoryOf;
    var db' := Rewind(db, stream, ancestor, settlements, events).value;
    var rows := RewoundRows(db.escrow, ancestor.number);
    UptoPrefix(history, ancestor.number);
    RewoundHistory(db.escrow, history, ancestor.number);
    FoldsPrefix(db.escrow, rows, history, |Upto(history, ancestor.number)|);
    ReplaysFrame(rows, db'.escrow, Upto(history, ancestor.number));
  }
}

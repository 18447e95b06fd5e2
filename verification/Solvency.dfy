/**
 * Inside a rewind (internal/store/settlements.go:356-483) no posting takes an escrow
 * balance below zero, because settlements are reversed before events and events in
 * descending order. Batches that arrive out of order have no such guarantee.
 */
module Solvency {
  import opened Results
  import opened Totals
  import opened Blocks
  import opened Tables
  import opened Books
  import opened Summaries
  import opened Attribution
  import opened EscrowStore
  import opened EscrowLedger
  import opened EscrowSteps
  import opened Rewinds
  import opened Replay
  import opened ReplaySteps

  ghost predicate AllSolvent(db: DB) {
    forall sender :: Solvent(HeldPool(db, sender))
  }

  // ---- Settlements first: every reversal gives back ----

  lemma PaymentsOnlyTake(row: SettlementRow, kind: Kind)
    requires EscrowKind(kind)
    ensures Effect(SettlementRowOf(row), kind) <= 0
  {
  }

  lemma FewerSettlements(rows: map<LogId, SettlementRow>, ids: seq<LogId>, kind: Kind, sender: Id)
    requires EscrowKind(kind)
    ensures Total(SettlementsReversed(rows, ids), SettlementPart(kind, sender)) >= Total(rows, SettlementPart(kind, sender))
  {
    var w := SettlementPart(kind, sender);
    var next := SettlementsReversed(rows, ids);
    forall id | id in rows ensures w(id, next[id]) >= w(id, rows[id]) { PaymentsOnlyTake(rows[id], kind); }
    HeavierRows(rows, next, w);
  }

  lemma SettlementPhase(db: DB, ids: seq<LogId>)
    requires AccountsOk(db) && AllSolvent(db) && NoRepeats(ids)
    requires forall id :: id in ids ==> id in db.escrow.settlements && db.escrow.settlements[id].settled
    ensures ReverseSettlements(db, ids).Ok? && AllSolvent(ReverseSettlements(db, ids).value)
  {
    hide ReverseSettlements, BooksOk, SummaryOk, LedgerOk, SettlementsReversed, NoRepeats;
    ReverseSettlementsKeep(db, ids);
    var db' := ReverseSettlements(db, ids).value;
    forall sender ensures Solvent(HeldPool(db', sender)) {
      FewerSettlements(db.escrow.settlements, ids, EscrowDeposit, sender);
      FewerSettlements(db.escrow.settlements, ids, EscrowReserve, sender);
      assert Solvent(HeldPool(db, sender));
      MoreHeld(db, db', EscrowDeposit, sender);
      MoreHeld(db, db', EscrowReserve, sender);
    }
  }

  lemma MoreHeld(db: DB, db': DB, kind: Kind, sender: Id)
    requires SumsOk(db) && SumsOk(db') && ChainKind(kind)
    requires db'.escrow.snapshots == db.escrow.snapshots && db'.escrow.events == db.escrow.events
    requires Total(db'.escrow.settlements, SettlementPart(kind, sender)) >= Total(db.escrow.settlements, SettlementPart(kind, sender))
    ensures Balance(db', kind, sender, Eth) >= Balance(db, kind, sender, Eth)
  {
  }

  // ---- Then events, last one first ----

  predicate TailListed(history: seq<Event>, events: seq<LogId>, after: int, k: nat) {
    && k <= |events| && k <= |history|
    && forall j :: 0 <= j < k ==> events[j] == history[|history| - 1 - j].log && history[|history| - 1 - j].block > after
  }

  lemma ListedInFront(db: DB, history: seq<Event>, events: seq<LogId>, after: int, i: nat) returns (t: nat)
    requires HistoryOf(db.escrow, history) && ListsEvents(db, events, after) && TailListed(history, events, after, i) && i < |events|
    ensures t < |history| - i && history[t].log == events[i] && history[t].block > after
  {
    assert events[i] in events;
    assert events[i] in Orphaned(db, after);
    assert InHistory(history, events[i]);
    forall x | |history| - i <= x < |history| ensures history[x].log != events[i] {
      assert events[|history| - 1 - x] == history[x].log;
    }
    t :| 0 <= t < |history| && history[t].log == events[i];
    assert Recorded(db.escrow, history[t]);
  }

  lemma ListedBehind(db: DB, history: seq<Event>, events: seq<LogId>, after: int, i: nat) returns (j: nat)
    requires HistoryOf(db.escrow, history) && ListsEvents(db, events, after) && TailListed(history, events, after, i)
    requires i < |history| && history[|history| - 1 - i].block > after
    ensures i <= j < |events| && events[j] == history[|history| - 1 - i].log
  {
    var u := |history| - 1 - i;
    assert Recorded(db.escrow, history[u]);
    assert history[u].log in Orphaned(db, after);
    assert history[u].log in events;
    forall x | 0 <= x < i ensures events[x] != history[u].log {
      assert history[|history| - 1 - x].log != history[u].log;
    }
    j :| 0 <= j < |events| && events[j] == history[u].log;
  }

  lemma ListingNext(db: DB, history: seq<Event>, events: seq<LogId>, after: int, i: nat)
    requires HistoryOf(db.escrow, history) && InOrder(history) && ListsEvents(db, events, after)
    requires TailListed(history, events, after, i) && i < |events|
    ensures TailListed(history, events, after, i + 1)
  {
    var t := ListedInFront(db, history, events, after, i);
    var u := |history| - 1 - i;
    assert Recorded(db.escrow, history[t]) && Recorded(db.escrow, history[u]);
    assert t < u ==> Before(history[t], history[u]);
    var j := ListedBehind(db, history, events, after, i);
  }

  /** The event query lists the orphaned tail of the history backwards. */
  lemma {:induction false} ListingIsTail(db: DB, history: seq<Event>, events: seq<LogId>, after: int, k: nat)
    requires HistoryOf(db.escrow, history) && InOrder(history) && ListsEvents(db, events, after) && k <= |events|
    ensures TailListed(history, events, after, k)
  {
    if k > 0 {
      ListingIsTail(db, history, events, after, k - 1);
      ListingNext(db, history, events, after, k - 1);
    }
  }

  /** The state after all settlements and the first k listed events are reversed. */
  ghost function Midway(e: Escrow, events: seq<LogId>, after: int): Escrow {
    e.(events := EventsReversed(e.events, events), settlements := UnsettledAfter(e.settlements, after))
  }

  lemma {:induction false} FewerPayments(history: seq<Event>, n: nat, kind: Kind, sender: Id)
    requires EscrowKind(kind) && n <= |history|
    ensures PaymentImpacts(history[..n], kind, sender) >= PaymentImpacts(history, kind, sender)
  {
    if n < |history| {
      var front := history[..|history| - 1];
      FewerPayments(front, n, kind, sender);
      assert front[..n] == history[..n];
      var e := history[|history| - 1];
      if e.settlement.Some? { PaymentsOnlyTake(SettlementRow(SettlementDataOf(e.settlement.value), Unmatched, true, 0), kind); }
    } else {
      assert history[..n] == history;
    }
  }

  lemma MidwayEvents(db: DB, history: seq<Event>, events: seq<LogId>, after: int, k: nat, kind: Kind, sender: Id)
    requires HistoryOf(db.escrow, history) && InOrder(history) && ListsEvents(db, events, after) && k <= |events|
    ensures k <= |history|
    ensures Total(EventsReversed(db.escrow.events, events[..k]), EventPart(kind, sender)) == EventImpacts(history[..|history| - k], kind, sender)
  {
    ListingIsTail(db, history, events, after, k);
    var rows := EventsReversed(db.escrow.events, events[..k]);
    var rest := history[..|history| - k];
    forall i | 0 <= i < |rest|
      ensures rest[i].log in rows && rows[rest[i].log].canonical && rows[rest[i].log].data == EventDataOf(rest[i])
    {
      assert Recorded(db.escrow, history[i]);
      forall j | 0 <= j < k ensures events[j] != history[i].log { assert history[|history| - 1 - j].log != history[i].log; }
    }
    forall x | |rest| <= x < |history| ensures history[x].log in events[..k] {
      assert events[..k][|history| - 1 - x] == history[x].log;
    }
    forall id | id in rows && rows[id].canonical ensures InHistory(rest, id) {
      assert InHistory(history, id);
      var i :| 0 <= i < |history| && history[i].log == id;
      assert rest[i].log == id;
    }
    EventsSum(rows, rest, kind, sender);
  }

  lemma MidwayPayments(e: Escrow, history: seq<Event>, after: int, kind: Kind, sender: Id)
    requires HistoryOf(e, history) && InOrder(history) && AgreeOk(e)
    ensures Total(UnsettledAfter(e.settlements, after), SettlementPart(kind, sender)) == PaymentImpacts(Upto(history, after), kind, sender)
  {
    hide Total, PaymentImpacts;
    RewoundHistory(e, history, after);
    RewoundAgree(e, after);
    HistoryPayments(RewoundRows(e, after), Upto(history, after));
    PaymentsSum(UnsettledAfter(e.settlements, after), Upto(history, after), kind, sender);
  }

  lemma UptoIsPrefix(history: seq<Event>, after: int, m: nat, kind: Kind, sender: Id)
    requires InOrder(history) && EscrowKind(kind) && m <= |history|
    requires forall j :: m <= j < |history| ==> history[j].block > after
    ensures PaymentImpacts(Upto(history, after), kind, sender) >= PaymentImpacts(history[..m], kind, sender)
  {
    assert m < |history| ==> history[m].block > after;
    UptoPrefix(history, after);
    var n := |Upto(history, after)|;
    assert history[..m][..n] == history[..n];
    FewerPayments(history[..m], n, kind, sender);
  }

  lemma TailIsAbove(history: seq<Event>, events: seq<LogId>, after: int, k: nat)
    requires TailListed(history, events, after, k)
    ensures forall j :: |history| - k <= j < |history| ==> history[j].block > after
  {
    forall j | |history| - k <= j < |history| ensures history[j].block > after {
      var x := |history| - 1 - j;
      assert events[x] == history[|history| - 1 - x].log && history[|history| - 1 - x].block > after;
    }
  }

  lemma MidwayReplayed(db: DB, history: seq<Event>, events: seq<LogId>, after: int, k: nat, kind: Kind, sender: Id)
    requires AgreeOk(db.escrow) && HistoryOf(db.escrow, history) && InOrder(history)
    requires ListsEvents(db, events, after) && k <= |events| && EscrowKind(kind)
    ensures k <= |history|
    ensures Replayed(Midway(db.escrow, events[..k], after), kind, sender) >=
            Total(db.escrow.snapshots, OpeningPart(kind, sender)) + Impacts(history[..|history| - k], kind, sender)
  {
    hide HistoryOf, ListsEvents, AgreeOk, Total, EventImpacts, PaymentImpacts, Impacts, EventsReversed, UnsettledAfter, InOrder, Upto;
    ListingIsTail(db, history, events, after, k);
    TailIsAbove(history, events, after, k);
    var m := |history| - k;
    MidwayEvents(db, history, events, after, k, kind, sender);
    MidwayPayments(db.escrow, history, after, kind, sender);
    UptoIsPrefix(history, after, m, kind, sender);
    ImpactsSplit(history[..m], kind, sender);
  }

  lemma MidwayHeld(db: DB, mid: DB, history: seq<Event>, events: seq<LogId>, after: int, k: nat, kind: Kind, sender: Id)
    requires AgreeOk(db.escrow) && Replays(db.escrow, history) && ListsEvents(db, events, after) && k <= |events|
    requires SumsOk(mid) && mid.escrow == Midway(db.escrow, events[..k], after) && EscrowKind(kind)
    ensures Balance(mid, kind, sender, Eth) >= 0
  {
    hide HistoryOf, InOrder, ListsEvents, AgreeOk, Fold, Total, Impacts, Midway, Replayed, OpeningPart;
    var start := OpeningPool(db.escrow, sender);
    MidwayReplayed(db, history, events, after, k, kind, sender);
    var m := |history| - k;
    FoldPrefix(start, history, sender, m);
    FoldSums(start, history[..m], sender, kind);
    OpeningSolvent(db.escrow, sender);
    FoldSolvent(start, history[..m], sender);
  }

  lemma EventPhase(db: DB, history: seq<Event>, settlements: seq<LogId>, events: seq<LogId>, after: int, k: nat)
    requires EscrowInv(db) && Replays(db.escrow, history)
    requires ListsSettlements(db, settlements, after) && ListsEvents(db, events, after) && k <= |events|
    ensures ReverseSettlements(db, settlements).Ok?
    ensures var r := ReverseEvents(ReverseSettlements(db, settlements).value, events[..k]);
            r.Ok? && AllSolvent(r.value)
  {
    ListedSettled(db, settlements, events, after);
    ListedRows(db, settlements, events, after);
    hide BooksOk, SummaryOk, LedgerOk, HistoryOf, InOrder, FoldsOk, ReverseSettlements, ReverseEvents, ListsSettlements, AttributionOk;
    ReverseSettlementsKeep(db, settlements);
    var db1 := ReverseSettlements(db, settlements).value;
    ReverseEventsKeep(db1, events[..k]);
    var mid := ReverseEvents(db1, events[..k]).value;
    forall sender ensures Solvent(HeldPool(mid, sender)) {
      MidwayHeld(db, mid, history, events, after, k, EscrowDeposit, sender);
      MidwayHeld(db, mid, history, events, after, k, EscrowReserve, sender);
    }
  }

  /**
   * At every point of a rewind, i settlements reversed or all of them and k events, no
   * escrow balance of any sender is below zero.
   */
  lemma RewindStaysSolvent(db: DB, history: seq<Event>, settlements: seq<LogId>, events: seq<LogId>, after: int, i: nat, k: nat)
    requires EscrowInv(db) && Replays(db.escrow, history)
    requires ListsSettlements(db, settlements, after) && ListsEvents(db, events, after)
    requires i <= |settlements| && k <= |events|
    ensures ReverseSettlements(db, settlements[..i]).Ok? && AllSolvent(ReverseSettlements(db, settlements[..i]).value)
    ensures ReverseSettlements(db, settlements).Ok?
    ensures var r := ReverseEvents(ReverseSettlements(db, settlements).value, events[..k]);
            r.Ok? && AllSolvent(r.value)
  {
    ListedSettled(db, settlements, events, after);
    assert AllSolvent(db) by {
      forall sender ensures Solvent(HeldPool(db, sender)) { BalancesAreReplayed(db, history, sender); }
    }
    EventPhase(db, history, settlements, events, after, k);
    hide Replays, BooksOk, SummaryOk, SumsOk, LedgerOk, AllSolvent, ReverseSettlements, ReverseEvents, ListsSettlements, ListsEvents;
    SettlementPhase(db, settlements[..i]);
  }

  // ---- Leg by leg ----

  /** Between the legs of a row an escrow balance is the one before or the one after it. */
  predicate OneLeg(r: Row, orphan: bool, a: Account) {
    var first := LegGain(r, orphan, Only, a);
    var second := first + LegGain(r, orphan, Deposit, a);
    (first == 0 || first == Gain(r, orphan, a)) && (second == 0 || second == Gain(r, orphan, a))
  }

  lemma EventLegByLeg(row: EventRow, orphan: bool, a: Account)
    requires EscrowKind(a.kind)
    ensures OneLeg(EventRowOf(row), orphan, a)
  {
  }

  lemma SettlementLegByLeg(row: SettlementRow, orphan: bool, a: Account)
    requires EscrowKind(a.kind)
    ensures OneLeg(SettlementRowOf(row), orphan, a)
  {
  }

  /** The state after the first m transfers of a row, in the order PostLegs makes them. */
  function AfterLegs(db: DB, table: RowTable, orphan: bool, id: LogId, r: Row, m: nat): Outcome<DB> {
    if m == 0 then Ok(db) else
      var db1 :- PostLeg(db, table, orphan, id, r, Only);
      if m == 1 then Ok(db1) else
        var db2 :- PostLeg(db1, table, orphan, id, r, Deposit);
        if m == 2 then Ok(db2) else PostLeg(db2, table, orphan, id, r, Reserve)
  }

  lemma AfterLegsEffect(db: DB, table: RowTable, orphan: bool, id: LogId, r: Row, m: nat)
    requires PostLegs(db, table, orphan, id, r).Ok?
    ensures AfterLegs(db, table, orphan, id, r, m).Ok?
    ensures forall a :: Held(AfterLegs(db, table, orphan, id, r, m).value.books.balances, a) == Held(db.books.balances, a) +
              if m == 0 then 0 else if m == 1 then LegGain(r, orphan, Only, a)
              else if m == 2 then LegGain(r, orphan, Only, a) + LegGain(r, orphan, Deposit, a) else Gain(r, orphan, a)
  {
    hide PostLeg, Held, LegGain, Gain, WithLeg;
    var db1 := PostLeg(db, table, orphan, id, r, Only).value;
    var db2 := PostLeg(db1, table, orphan, id, r, Deposit).value;
    PostLegEffect(db, table, orphan, id, r, Only);
    PostLegEffect(db1, table, orphan, id, r, Deposit);
    PostLegEffect(db2, table, orphan, id, r, Reserve);
    forall a ensures Gain(r, orphan, a) == LegGain(r, orphan, Only, a) + LegGain(r, orphan, Deposit, a) + LegGain(r, orphan, Reserve, a) {
      GainsAdd(r, orphan, a);
    }
  }

  ghost predicate Reversible(r: Row) {
    forall kind, owner :: EscrowKind(kind) ==> OneLeg(r, true, Account(kind, owner, Eth))
  }

  /** A row whose reversal starts and ends solvent is solvent after each of its transfers. */
  lemma LegsStaySolvent(db: DB, table: RowTable, id: LogId, r: Row, m: nat)
    requires AllSolvent(db) && Reversible(r) && PostLegs(db, table, true, id, r).Ok? && AllSolvent(PostLegs(db, table, true, id, r).value)
    ensures AfterLegs(db, table, true, id, r, m).Ok? && AllSolvent(AfterLegs(db, table, true, id, r, m).value)
  {
    hide PostLegs, AfterLegs, Held, LegGain, Gain, Legged;
    AfterLegsEffect(db, table, true, id, r, m);
    PostLegsEffect(db, table, true, id, r);
    var mid, end := AfterLegs(db, table, true, id, r, m).value, PostLegs(db, table, true, id, r).value;
    forall sender ensures Solvent(HeldPool(mid, sender)) {
      assert Solvent(HeldPool(db, sender)) && Solvent(HeldPool(end, sender));
      var d, e := Account(EscrowDeposit, sender, Eth), Account(EscrowReserve, sender, Eth);
      assert OneLeg(r, true, d) && OneLeg(r, true, e);
    }
  }

  lemma EventReversible(row: EventRow)
    ensures Reversible(EventRowOf(row))
  {
    hide EventRowOf, OneLeg;
    forall kind, owner | EscrowKind(kind) ensures OneLeg(EventRowOf(row), true, Account(kind, owner, Eth)) {
      EventLegByLeg(row, true, Account(kind, owner, Eth));
    }
  }

  lemma SettlementReversible(row: SettlementRow)
    ensures Reversible(SettlementRowOf(row))
  {
    hide SettlementRowOf, OneLeg;
    forall kind, owner | EscrowKind(kind) ensures OneLeg(SettlementRowOf(row), true, Account(kind, owner, Eth)) {
      SettlementLegByLeg(row, true, Account(kind, owner, Eth));
    }
  }

  lemma SameBooksSolvent(db: DB, db': DB)
    requires db'.books == db.books && AllSolvent(db')
    ensures AllSolvent(db)
  {
    hide Held;
    forall sender ensures Solvent(HeldPool(db, sender)) { assert Solvent(HeldPool(db', sender)); }
  }

  /** A settlement's reversal is its legs, then its status and counts. */
  lemma SettlementReversalLegs(db: DB, id: LogId, m: nat)
    requires id in db.escrow.settlements && ReverseSettlement(db, id).Ok? && AllSolvent(db) && AllSolvent(ReverseSettlement(db, id).value)
    ensures var mid := AfterLegs(db, SettlementRows, true, id, SettlementRowOf(db.escrow.settlements[id]), m);
            mid.Ok? && AllSolvent(mid.value)
  {
    hide PostLegs, ReverseSettlement, AfterLegs, AllSolvent, Reversible, SettlementRowOf, UpdateSettlementMetrics;
    ReverseSettlementShape(db, id);
    var row := db.escrow.settlements[id];
    var posted := PostLegs(db, SettlementRows, true, id, SettlementRowOf(row));
    SettlementReversible(row);
    SameBooksSolvent(posted.value, ReverseSettlement(db, id).value);
    LegsStaySolvent(db, SettlementRows, id, SettlementRowOf(row), m);
  }

  lemma EventReversalLegs(db: DB, id: LogId, m: nat)
    requires id in db.escrow.events && db.escrow.events[id].canonical
    requires ReverseEvent(db, id).Ok? && AllSolvent(db) && AllSolvent(ReverseEvent(db, id).value)
    ensures var mid := AfterLegs(db, EventRows, true, id, EventRowOf(db.escrow.events[id]), m);
            mid.Ok? && AllSolvent(mid.value)
  {
    hide PostLegs, UnpostEvent, AfterLegs, AllSolvent, Reversible, EventRowOf;
    var row := db.escrow.events[id];
    OrphanRow(row);
    UnpostEventIsLegs(db, id, row.generation, row.data);
    var posted := PostLegs(db, EventRows, true, id, EventRowOf(row));
    EventReversible(row);
    SameBooksSolvent(posted.value, ReverseEvent(db, id).value);
    LegsStaySolvent(db, EventRows, id, EventRowOf(row), m);
  }

  lemma OneMoreSettlement(db: DB, ids: seq<LogId>, i: nat)
    requires i < |ids| && ReverseSettlements(db, ids[..i + 1]).Ok?
    ensures ReverseSettlements(db, ids[..i]).Ok? && ids[i] in ReverseSettlements(db, ids[..i]).value.escrow.settlements
    ensures ReverseSettlements(db, ids[..i + 1]) == ReverseSettlement(ReverseSettlements(db, ids[..i]).value, ids[i])
  {
    hide ReverseSettlement;
    assert ids[..i + 1][..i] == ids[..i];
  }

  lemma OneMoreEvent(db: DB, ids: seq<LogId>, k: nat)
    requires k < |ids| && ReverseEvents(db, ids[..k + 1]).Ok?
    ensures ReverseEvents(db, ids[..k]).Ok? && ids[k] in ReverseEvents(db, ids[..k]).value.escrow.events
    ensures ReverseEvents(db, ids[..k + 1]) == ReverseEvent(ReverseEvents(db, ids[..k]).value, ids[k])
  {
    hide ReverseEvent;
    assert ids[..k + 1][..k] == ids[..k];
  }

  /** After any number of whole settlements and m transfers of the next, no escrow balance is below zero. */
  lemma SettlementPostingsStaySolvent(db: DB, history: seq<Event>, settlements: seq<LogId>, events: seq<LogId>, after: int, i: nat, m: nat)
    requires EscrowInv(db) && Replays(db.escrow, history)
    requires ListsSettlements(db, settlements, after) && ListsEvents(db, events, after) && i < |settlements|
    ensures var before := ReverseSettlements(db, settlements[..i]);
            && before.Ok? && settlements[i] in before.value.escrow.settlements
            && var mid := AfterLegs(before.value, SettlementRows, true, settlements[i], SettlementRowOf(before.value.escrow.settlements[settlements[i]]), m);
            && mid.Ok? && AllSolvent(mid.value)
            && (m >= 3 ==> mid == PostLegs(before.value, SettlementRows, true, settlements[i], SettlementRowOf(before.value.escrow.settlements[settlements[i]])))
  {
    hide EscrowInv, Replays, ListsSettlements, ListsEvents, AllSolvent, ReverseSettlements, ReverseSettlement, ReverseEvents, SettlementRowOf, PostLeg;
    RewindStaysSolvent(db, history, settlements, events, after, i, 0);
    RewindStaysSolvent(db, history, settlements, events, after, i + 1, 0);
    OneMoreSettlement(db, settlements, i);
    SettlementReversalLegs(ReverseSettlements(db, settlements[..i]).value, settlements[i], m);
  }

  lemma StillCanonical(db: DB, settlements: seq<LogId>, events: seq<LogId>, after: int, k: nat)
    requires EscrowInv(db) && ListsSettlements(db, settlements, after) && ListsEvents(db, events, after) && k < |events|
    requires ReverseSettlements(db, settlements).Ok? && ReverseEvents(ReverseSettlements(db, settlements).value, events[..k]).Ok?
    ensures var before := ReverseEvents(ReverseSettlements(db, settlements).value, events[..k]).value;
            events[k] in before.escrow.events && before.escrow.events[events[k]].canonical
  {
    ListedSettled(db, settlements, events, after);
    hide BooksOk, SummaryOk, LedgerOk, SumsOk, ReverseSettlements, ReverseEvents, ListsSettlements, AttributionOk, AgreeOk;
    ReverseSettlementsKeep(db, settlements);
    ReverseEventsKeep(ReverseSettlements(db, settlements).value, events[..k]);
    assert events[k] in events;
  }

  /** After all settlements, any number of whole events and m transfers of the next, no escrow balance is below zero. */
  lemma EventPostingsStaySolvent(db: DB, history: seq<Event>, settlements: seq<LogId>, events: seq<LogId>, after: int, k: nat, m: nat)
    requires EscrowInv(db) && Replays(db.escrow, history)
    requires ListsSettlements(db, settlements, after) && ListsEvents(db, events, after) && k < |events|
    ensures ReverseSettlements(db, settlements).Ok?
    ensures var before := ReverseEvents(ReverseSettlements(db, settlements).value, events[..k]);
            && before.Ok? && events[k] in before.value.escrow.events
            && var mid := AfterLegs(before.value, EventRows, true, events[k], EventRowOf(before.value.escrow.events[events[k]]), m);
            && mid.Ok? && AllSolvent(mid.value)
            && (m >= 3 ==> mid == PostLegs(before.value, EventRows, true, events[k], EventRowOf(before.value.escrow.events[events[k]])))
  {
    hide EscrowInv, Replays, ListsSettlements, ListsEvents, AllSolvent, ReverseSettlements, ReverseEvents, ReverseEvent, EventRowOf, PostLeg;
    RewindStaysSolvent(db, history, settlements, events, after, 0, k);
    RewindStaysSolvent(db, history, settlements, events, after, 0, k + 1);
    var db1 := ReverseSettlements(db, settlements).value;
    OneMoreEvent(db1, events, k);
    StillCanonical(db, settlements, events, after, k);
    EventReversalLegs(ReverseEvents(db1, events[..k]).value, events[k], m);
  }

  // ---- When a rewind leaves a solvent store ----

  function UptoPart(row: Row, block: int, after: int, kind: Kind, owner: Id): int {
    if block <= after then Part(row, kind, owner) else 0
  }

  ghost function EventUpto(after: int, kind: Kind, owner: Id): (LogId, EventRow) -> int {
    (id: LogId, row: EventRow) => UptoPart(EventRowOf(row), row.data.block, after, kind, owner)
  }

  ghost function SettlementUpto(after: int, kind: Kind, owner: Id): (LogId, SettlementRow) -> int {
    (id: LogId, row: SettlementRow) => UptoPart(SettlementRowOf(row), row.data.block, after, kind, owner)
  }

  /** What the opening snapshots and the live rows at or below a block make of a balance. */
  ghost function LiveAt(e: Escrow, after: int, kind: Kind, owner: Id): int {
    Total(e.snapshots, OpeningPart(kind, owner)) + Total(e.events, EventUpto(after, kind, owner)) +
    Total(e.settlements, SettlementUpto(after, kind, owner))
  }

  lemma RewoundIsLiveAt(e: Escrow, after: int, kind: Kind, owner: Id)
    ensures Replayed(RewoundRows(e, after), kind, owner) == LiveAt(e, after, kind, owner)
  {
    hide Total;
    var w, x := EventPart(kind, owner), EventUpto(after, kind, owner);
    var events := OrphanedAfter(e.events, after);
    forall id | id in e.events ensures w(id, events[id]) == x(id, e.events[id]) { OrphanedPart(e.events[id], after, kind, owner); }
    Reweighed(e.events, events, x, w);
    var y, z := SettlementPart(kind, owner), SettlementUpto(after, kind, owner);
    Reweighed(e.settlements, UnsettledAfter(e.settlements, after), z, y);
  }

  lemma OrphanedPart(row: EventRow, after: int, kind: Kind, owner: Id)
    ensures Part(EventRowOf(if row.data.block > after then row.(canonical := false) else row), kind, owner) ==
            UptoPart(EventRowOf(row), row.data.block, after, kind, owner)
  {
  }

  /**
   * Whatever order its rows arrived in, a store is solvent after a rewind exactly when
   * the opening snapshots and the live rows that survive are, for every sender.
   */
  lemma RewindSolventIff(db: DB, stream: Id, ancestor: Block, settlements: seq<LogId>, events: seq<LogId>)
    requires EscrowInv(db)
    requires ListsSettlements(db, settlements, ancestor.number) && ListsEvents(db, events, ancestor.number)
    requires HasSnapshot(db, stream) && !BeforeAnchors(db, stream, ancestor.number)
    ensures var r := Rewind(db, stream, ancestor, settlements, events);
            && r.Ok?
            && (AllSolvent(r.value) <==>
                  forall sender :: LiveAt(db.escrow, ancestor.number, EscrowDeposit, sender) >= 0 && LiveAt(db.escrow, ancestor.number, EscrowReserve, sender) >= 0)
  {
    RewindKeeps(db, stream, ancestor, settlements, events);
    hide EscrowInv, Rewind, ListsSettlements, ListsEvents, ChainWrite, RewoundRows, Replayed, LiveAt;
    var r := Rewind(db, stream, ancestor, settlements, events).value;
    InvParts(r);
    forall kind, sender | ChainKind(kind) ensures Balance(r, kind, sender, Eth) == LiveAt(db.escrow, ancestor.number, kind, sender) {
      ReplayedFrame(RewoundRows(db.escrow, ancestor.number), r.escrow, kind, sender);
      RewoundIsLiveAt(db.escrow, ancestor.number, kind, sender);
    }
    if AllSolvent(r) {
      forall sender
        ensures LiveAt(db.escrow, ancestor.number, EscrowDeposit, sender) >= 0 && LiveAt(db.escrow, ancestor.number, EscrowReserve, sender) >= 0
      {
        assert Solvent(HeldPool(r, sender));
      }
    }
  }
}

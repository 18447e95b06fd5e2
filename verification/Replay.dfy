/**
 * The escrow ledger refines a plain replay: after any in-order batches and rewinds the
 * balances of a sender are those of replaying, with the contract's own checks, only the
 * canonical events from the opening snapshot; and they are never negative on the way.
 */
module Replay {
  import opened Results
  import opened Totals
  import opened Blocks
  import opened Tables
  import opened Books
  import opened EscrowStore
  import opened EscrowLedger
  import opened EscrowSteps
  import opened Reorgs

  // ---- The plain replay ----

  /** What one sender has at the broker, and what the ledger says it paid in and spent. */
  datatype Pool = Pool(deposit: int, reserve: int, cash: int, spend: int)

  function Turn(p: Pool, e: Event, sender: Id): Outcome<Pool> {
    if e.sender != sender then Ok(p) else
      match e.kind
      case DepositFunded => Ok(p.(deposit := p.deposit + e.amount, cash := p.cash - e.amount))
      case ReserveFunded => Ok(p.(reserve := p.reserve + e.amount, cash := p.cash - e.amount))
      case Withdrawal =>
        if p.deposit != e.depositAmount || p.reserve != e.reserveAmount then Err(BalanceMismatch)
        else Ok(Pool(0, 0, p.cash + e.depositAmount + e.reserveAmount, p.spend))
      case WinningTicketRedeemed =>
        if e.settlement.None? then Err(MissingSettlement) else
          var s := e.settlement.value;
          if !SplitOk(s) then Err(InvalidSplit)
          else if s.depositPaid != (if s.face < p.deposit then s.face else p.deposit) then Err(BalanceMismatch)
          else if p.reserve < s.reservePaid then Err(InsufficientReserve)
          else Ok(p.(deposit := p.deposit - s.depositPaid, reserve := p.reserve - s.reservePaid, spend := p.spend + s.paid))
      case _ => Ok(p)
  }

  function Fold(start: Pool, history: seq<Event>, sender: Id): Outcome<Pool> {
    if history == [] then Ok(start) else
      var p :- Fold(start, history[..|history| - 1], sender);
      Turn(p, history[|history| - 1], sender)
  }

  function Field(p: Pool, kind: Kind): int {
    match kind
    case TreasuryCash => p.cash
    case TreasurySettledSpend => p.spend
    case EscrowDeposit => p.deposit
    case EscrowReserve => p.reserve
    case _ => 0
  }

  /** The opening snapshots of one sender. */
  ghost function OpeningPool(e: Escrow, sender: Id): Pool {
    Pool(Total(e.snapshots, OpeningPart(EscrowDeposit, sender)), Total(e.snapshots, OpeningPart(EscrowReserve, sender)),
         Total(e.snapshots, OpeningPart(TreasuryCash, sender)), Total(e.snapshots, OpeningPart(TreasurySettledSpend, sender)))
  }

  function HeldPool(db: DB, sender: Id): Pool {
    Pool(Balance(db, EscrowDeposit, sender, Eth), Balance(db, EscrowReserve, sender, Eth),
         Balance(db, TreasuryCash, sender, Eth), Balance(db, TreasurySettledSpend, sender, Eth))
  }

  predicate Solvent(p: Pool) { p.deposit >= 0 && p.reserve >= 0 }

  lemma TurnSolvent(p: Pool, e: Event, sender: Id)
    requires Solvent(p) && Turn(p, e, sender).Ok?
    ensures Solvent(Turn(p, e, sender).value)
  {
  }

  lemma {:induction false} FoldSolvent(start: Pool, history: seq<Event>, sender: Id)
    requires Solvent(start) && Fold(start, history, sender).Ok?
    ensures Solvent(Fold(start, history, sender).value)
  {
    if history != [] {
      FoldSolvent(start, history[..|history| - 1], sender);
      TurnSolvent(Fold(start, history[..|history| - 1], sender).value, history[|history| - 1], sender);
    }
  }

  /** A replay that succeeds, succeeds on every prefix. */
  lemma {:induction false} FoldPrefix(start: Pool, history: seq<Event>, sender: Id, n: nat)
    requires n <= |history| && Fold(start, history, sender).Ok?
    ensures Fold(start, history[..n], sender).Ok?
  {
    if n < |history| {
      FoldPrefix(start, history[..|history| - 1], sender, n);
      assert history[..|history| - 1][..n] == history[..n];
    } else {
      assert history[..n] == history;
    }
  }

  // ---- The replay as a sum ----

  /** What an event and its settlement do to an account of the sender. */
  function Impact(e: Event, kind: Kind, sender: Id): int {
    if e.sender != sender then 0
    else Effect(EventRowOf(EventRow(EventDataOf(e), true, 0)), kind) + PaymentImpact(e, kind)
  }

  function PaymentImpact(e: Event, kind: Kind): int {
    if e.kind == WinningTicketRedeemed && e.settlement.Some? then
      Effect(SettlementRowOf(SettlementRow(SettlementDataOf(e.settlement.value), Unmatched, true, 0)), kind)
    else 0
  }

  function Impacts(history: seq<Event>, kind: Kind, sender: Id): int {
    if history == [] then 0
    else Impacts(history[..|history| - 1], kind, sender) + Impact(history[|history| - 1], kind, sender)
  }

  lemma TurnSums(p: Pool, e: Event, sender: Id, kind: Kind)
    requires ChainKind(kind) && Turn(p, e, sender).Ok?
    ensures Field(Turn(p, e, sender).value, kind) == Field(p, kind) + Impact(e, kind, sender)
  {
  }

  lemma {:induction false} FoldSums(start: Pool, history: seq<Event>, sender: Id, kind: Kind)
    requires ChainKind(kind) && Fold(start, history, sender).Ok?
    ensures Field(Fold(start, history, sender).value, kind) == Field(start, kind) + Impacts(history, kind, sender)
  {
    if history != [] {
      var front := history[..|history| - 1];
      FoldSums(start, front, sender, kind);
      TurnSums(Fold(start, front, sender).value, history[|history| - 1], sender, kind);
    }
  }

  // ---- The canonical history of a database ----

  predicate Before(a: Event, b: Event) {
    a.block < b.block || (a.block == b.block && a.log.logIndex < b.log.logIndex)
  }

  predicate InOrder(history: seq<Event>) {
    forall i, j :: 0 <= i < j < |history| ==> Before(history[i], history[j])
  }

  predicate DistinctLogs(history: seq<Event>) {
    forall i, j :: 0 <= i < j < |history| ==> history[i].log != history[j].log
  }

  predicate Recorded(e: Escrow, ev: Event) {
    && Decoded(ev)
    && ev.log in e.events && e.events[ev.log].canonical && e.events[ev.log].data == EventDataOf(ev)
    && (ev.kind == WinningTicketRedeemed ==>
          ev.settlement.Some? && ev.log in e.settlements && e.settlements[ev.log].settled &&
          e.settlements[ev.log].data == SettlementDataOf(ev.settlement.value))
  }

  predicate InHistory(history: seq<Event>, id: LogId) {
    exists i :: 0 <= i < |history| && history[i].log == id
  }

  /** The canonical rows are exactly the events of the history. */
  ghost predicate HistoryOf(e: Escrow, history: seq<Event>) {
    && DistinctLogs(history)
    && (forall i :: 0 <= i < |history| ==> Recorded(e, history[i]))
    && forall id :: id in e.events && e.events[id].canonical ==> InHistory(history, id)
  }

  ghost predicate FoldsOk(e: Escrow, history: seq<Event>) {
    forall sender :: Fold(OpeningPool(e, sender), history, sender).Ok?
  }

  ghost predicate Replays(e: Escrow, history: seq<Event>) {
    HistoryOf(e, history) && InOrder(history) && FoldsOk(e, history)
  }

  // ---- The sum over canonical rows is the sum over the history ----

  function EventImpacts(history: seq<Event>, kind: Kind, sender: Id): int {
    if history == [] then 0
    else EventImpacts(history[..|history| - 1], kind, sender) +
         (var e := history[|history| - 1]; if e.sender == sender then Effect(EventRowOf(EventRow(EventDataOf(e), true, 0)), kind) else 0)
  }

  function PaymentImpacts(history: seq<Event>, kind: Kind, sender: Id): int {
    if history == [] then 0
    else PaymentImpacts(history[..|history| - 1], kind, sender) +
         (var e := history[|history| - 1]; if e.sender == sender then PaymentImpact(e, kind) else 0)
  }

  lemma {:induction false} ImpactsSplit(history: seq<Event>, kind: Kind, sender: Id)
    ensures Impacts(history, kind, sender) == EventImpacts(history, kind, sender) + PaymentImpacts(history, kind, sender)
  {
    if history != [] { ImpactsSplit(history[..|history| - 1], kind, sender); }
  }

  lemma HistoryFront(rows: map<LogId, EventRow>, history: seq<Event>, id: LogId)
    requires history != [] && InHistory(history, id) && id != history[|history| - 1].log
    ensures InHistory(history[..|history| - 1], id)
  {
    var i :| 0 <= i < |history| && history[i].log == id;
    assert history[..|history| - 1][i] == history[i];
  }

  /** Any set of live event rows that is exactly a list of events sums to the list. */
  lemma {:induction false} EventsSum(rows: map<LogId, EventRow>, history: seq<Event>, kind: Kind, sender: Id)
    requires DistinctLogs(history)
    requires forall i :: 0 <= i < |history| ==>
               history[i].log in rows && rows[history[i].log].canonical && rows[history[i].log].data == EventDataOf(history[i])
    requires forall id :: id in rows && rows[id].canonical ==> InHistory(history, id)
    ensures Total(rows, EventPart(kind, sender)) == EventImpacts(history, kind, sender)
    decreases |history|
  {
    hide Total, Effect;
    var w := EventPart(kind, sender);
    if history == [] {
      AllZero(rows, w);
    } else {
      var front, last := history[..|history| - 1], history[|history| - 1];
      var row := rows[last.log];
      var rest := rows[last.log := row.(canonical := false)];
      forall id | id in rest && rest[id].canonical ensures InHistory(front, id) { HistoryFront(rows, history, id); }
      EventsSum(rest, front, kind, sender);
      Updated(rows, w, last.log, row.(canonical := false));
      GenerationIsNotPosted(row);
      hide EventRowOf;
      assert w(last.log, row.(canonical := false)) == 0;
    }
  }

  lemma GenerationIsNotPosted(row: EventRow)
    ensures EventRowOf(row).live == row.canonical && EventRowOf(row).sender == row.data.sender
    ensures !EventRowOf(row.(canonical := false)).live
    ensures forall kind :: Effect(EventRowOf(row), kind) == Effect(EventRowOf(EventRow(row.data, true, 0)), kind)
  {
  }

  lemma {:induction false} PaymentsSum(rows: map<LogId, SettlementRow>, history: seq<Event>, kind: Kind, sender: Id)
    requires DistinctLogs(history)
    requires forall i :: 0 <= i < |history| && history[i].kind == WinningTicketRedeemed ==>
               history[i].settlement.Some? && history[i].settlement.value.sender == history[i].sender && history[i].log in rows &&
               rows[history[i].log].settled && rows[history[i].log].data == SettlementDataOf(history[i].settlement.value)
    requires forall id :: id in rows && rows[id].settled ==>
               exists i :: 0 <= i < |history| && history[i].log == id && history[i].kind == WinningTicketRedeemed
    ensures Total(rows, SettlementPart(kind, sender)) == PaymentImpacts(history, kind, sender)
    decreases |history|
  {
    hide Total, Effect;
    var w := SettlementPart(kind, sender);
    if history == [] {
      AllZero(rows, w);
    } else {
      var front, last := history[..|history| - 1], history[|history| - 1];
      var rest := if last.kind == WinningTicketRedeemed then rows[last.log := rows[last.log].(settled := false)] else rows;
      forall id | id in rest && rest[id].settled
        ensures exists i :: 0 <= i < |front| && front[i].log == id && front[i].kind == WinningTicketRedeemed
      {
        var i :| 0 <= i < |history| && history[i].log == id && history[i].kind == WinningTicketRedeemed;
        assert front[i] == history[i];
      }
      PaymentsSum(rest, front, kind, sender);
      if last.kind == WinningTicketRedeemed {
        Updated(rows, w, last.log, rows[last.log].(settled := false));
        SettlementGeneration(rows[last.log]);
      }
    }
  }

  lemma SettlementGeneration(row: SettlementRow)
    ensures forall kind :: Effect(SettlementRowOf(row), kind) == Effect(SettlementRowOf(SettlementRow(row.data, Unmatched, true, 0)), kind)
  {
  }

  lemma HistoryPayments(e: Escrow, history: seq<Event>)
    requires HistoryOf(e, history) && AgreeOk(e)
    ensures forall i :: 0 <= i < |history| && history[i].kind == WinningTicketRedeemed ==>
              history[i].settlement.Some? && history[i].settlement.value.sender == history[i].sender && history[i].log in e.settlements &&
              e.settlements[history[i].log].settled && e.settlements[history[i].log].data == SettlementDataOf(history[i].settlement.value)
    ensures forall id :: id in e.settlements && e.settlements[id].settled ==>
              exists i :: 0 <= i < |history| && history[i].log == id && history[i].kind == WinningTicketRedeemed
  {
    forall id | id in e.settlements && e.settlements[id].settled
      ensures exists i :: 0 <= i < |history| && history[i].log == id && history[i].kind == WinningTicketRedeemed
    {
      assert AgreeAt(e, id);
      assert InHistory(history, id);
      var i :| 0 <= i < |history| && history[i].log == id;
      assert Recorded(e, history[i]);
    }
    forall i | 0 <= i < |history| && history[i].kind == WinningTicketRedeemed
      ensures history[i].settlement.Some? && history[i].settlement.value.sender == history[i].sender && history[i].log in e.settlements &&
              e.settlements[history[i].log].settled && e.settlements[history[i].log].data == SettlementDataOf(history[i].settlement.value)
    {
      assert Recorded(e, history[i]);
    }
  }

  lemma ReplayedIsImpacts(e: Escrow, history: seq<Event>, kind: Kind, sender: Id)
    requires HistoryOf(e, history) && AgreeOk(e)
    ensures Replayed(e, kind, sender) == Total(e.snapshots, OpeningPart(kind, sender)) + Impacts(history, kind, sender)
  {
    HistoryPayments(e, history);
    forall i | 0 <= i < |history|
      ensures history[i].log in e.events && e.events[history[i].log].canonical && e.events[history[i].log].data == EventDataOf(history[i])
    {
      assert Recorded(e, history[i]);
    }
    hide Total, EventImpacts, PaymentImpacts, Impacts, AgreeOk;
    EventsSum(e.events, history, kind, sender);
    PaymentsSum(e.settlements, history, kind, sender);
    ImpactsSplit(history, kind, sender);
  }

  /**
   * The escrow and treasury balances of every sender are the outcome of replaying the
   * canonical history from the opening snapshot, and the escrow ones are not negative.
   */
  lemma BalancesAreReplayed(db: DB, history: seq<Event>, sender: Id)
    requires SumsOk(db) && AgreeOk(db.escrow) && Replays(db.escrow, history)
    ensures Fold(OpeningPool(db.escrow, sender), history, sender) == Ok(HeldPool(db, sender))
    ensures Solvent(HeldPool(db, sender))
  {
    hide HistoryOf, InOrder, AgreeOk, Fold, Impacts;
    var start := OpeningPool(db.escrow, sender);
    var p := Fold(start, history, sender).value;
    forall kind | ChainKind(kind) ensures Field(p, kind) == Held(db.books.balances, Account(kind, sender, Eth)) {
      FoldSums(start, history, sender, kind);
      ReplayedIsImpacts(db.escrow, history, kind, sender);
    }
    assert Field(p, EscrowDeposit) == HeldPool(db, sender).deposit && Field(p, EscrowReserve) == HeldPool(db, sender).reserve;
    assert Field(p, TreasuryCash) == HeldPool(db, sender).cash && Field(p, TreasurySettledSpend) == HeldPool(db, sender).spend;
    OpeningSolvent(db.escrow, sender);
    FoldSolvent(start, history, sender);
  }

  lemma OpeningSolvent(e: Escrow, sender: Id)
    ensures Solvent(OpeningPool(e, sender))
  {
    var d, r := OpeningPart(EscrowDeposit, sender), OpeningPart(EscrowReserve, sender);
    forall k | k in e.snapshots ensures d(k, e.snapshots[k]) >= 0 && r(k, e.snapshots[k]) >= 0 {
      var row := e.snapshots[k];
      assert OpeningEffect(row, EscrowDeposit) >= 0 && OpeningEffect(row, EscrowReserve) >= 0;
    }
    NonNegative(e.snapshots, d);
    NonNegative(e.snapshots, r);
  }
}

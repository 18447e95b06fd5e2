/**
 * Batches applied out of chain order: the store alone accepts them
 * (internal/store/settlements.go:140-215), and a rewind after them may overdraw an escrow
 * balance. The listener never sends such batches.
 */
module Overdraw {
  import opened Results
  import opened Totals
  import opened Blocks
  import opened Tables
  import opened Books
  import opened EscrowStore
  import opened EscrowLedger
  import opened EscrowSteps
  import opened Reorgs
  import opened Rewinds
  import opened Bootstrap
  import opened Replay
  import opened ReplaySteps
  import opened Runs

  function LateFunding(sender: Id, id: LogId, n: nat): Event {
    Event(DepositFunded, id, 10, sender, "", n, 0, 0, None)
  }

  function EarlyWithdrawal(sender: Id, id: LogId, n: nat): Event {
    Event(Withdrawal, id, 5, sender, "", 0, n, 0, None)
  }

  lemma FundedHeld(db: DB, db1: DB, sender: Id, funding: LogId, n: nat)
    requires SumsOk(db) && SumsOk(db1) && db.escrow.events == map[] && db.escrow.settlements == map[] && db1.escrow.settlements == map[]
    requires db1.escrow.snapshots == db.escrow.snapshots
    requires db1.escrow.events == db.escrow.events[funding := EventRow(EventDataOf(LateFunding(sender, funding, n)), true, 0)]
    requires HeldPool(db, sender).deposit == 0 && HeldPool(db, sender).reserve == 0
    ensures HeldPool(db1, sender).deposit == n && HeldPool(db1, sender).reserve == 0
  {
    hide Total;
    var row := EventRow(EventDataOf(LateFunding(sender, funding, n)), true, 0);
    Updated(db.escrow.events, EventPart(EscrowDeposit, sender), funding, row);
    Updated(db.escrow.events, EventPart(EscrowReserve, sender), funding, row);
  }

  lemma FundingApplies(db: DB, sender: Id, funding: LogId, n: nat) returns (db1: DB)
    requires EscrowInv(db) && db.escrow.events == map[] && db.escrow.settlements == map[]
    requires HeldPool(db, sender).deposit == 0 && HeldPool(db, sender).reserve == 0
    ensures ApplyEvent(db, LateFunding(sender, funding, n)) == Ok(db1) && EscrowInv(db1)
    ensures db1.escrow.snapshots == db.escrow.snapshots && db1.escrow.settlements == map[]
    ensures db1.escrow.events == map[funding := EventRow(EventDataOf(LateFunding(sender, funding, n)), true, 0)]
    ensures HeldPool(db1, sender).deposit == n && HeldPool(db1, sender).reserve == 0
  {
    hide ApplyEvent, AccountsOk, AgreeOk, HeldPool;
    var f := LateFunding(sender, funding, n);
    ApplyEventKeeps(db, f);
    db1 := ApplyEvent(db, f).value;
    assert SumsOk(db) && SumsOk(db1) by { InvParts(db); InvParts(db1); }
    FundedHeld(db, db1, sender, funding, n);
  }

  lemma WithdrawalApplies(db: DB, sender: Id, withdrawal: LogId, n: nat) returns (db1: DB)
    requires EscrowInv(db) && withdrawal !in db.escrow.events && db.escrow.settlements == map[]
    requires HeldPool(db, sender).deposit == n && HeldPool(db, sender).reserve == 0
    ensures ApplyEvent(db, EarlyWithdrawal(sender, withdrawal, n)) == Ok(db1) && EscrowInv(db1)
    ensures db1.escrow.snapshots == db.escrow.snapshots && db1.escrow.settlements == map[]
    ensures db1.escrow.events == db.escrow.events[withdrawal := EventRow(EventDataOf(EarlyWithdrawal(sender, withdrawal, n)), true, 0)]
  {
    hide ApplyEvent, AccountsOk, AgreeOk, Held;
    var w := EarlyWithdrawal(sender, withdrawal, n);
    ApplyEventKeeps(db, w);
    db1 := ApplyEvent(db, w).value;
  }

  lemma OnlyFundingAbove(db: DB, sender: Id, funding: LogId, withdrawal: LogId, n: nat)
    requires db.escrow.settlements == map[] && funding != withdrawal
    requires db.escrow.events == map[funding := EventRow(EventDataOf(LateFunding(sender, funding, n)), true, 0)]
                                    [withdrawal := EventRow(EventDataOf(EarlyWithdrawal(sender, withdrawal, n)), true, 0)]
    ensures ListsSettlements(db, [], 7) && ListsEvents(db, [funding], 7)
  {
  }

  lemma FundingOrphaned(e: Escrow, e': Escrow, sender: Id, funding: LogId, withdrawal: LogId, n: nat)
    requires e.settlements == map[] && funding != withdrawal
    requires e.events == map[funding := EventRow(EventDataOf(LateFunding(sender, funding, n)), true, 0)]
                            [withdrawal := EventRow(EventDataOf(EarlyWithdrawal(sender, withdrawal, n)), true, 0)]
    requires e' == RewoundRows(e, 7).(chains := e'.chains)
    ensures e'.settlements == map[] && e'.snapshots == e.snapshots
    ensures e'.events == map[funding := EventRow(EventDataOf(LateFunding(sender, funding, n)), false, 0)]
                            [withdrawal := EventRow(EventDataOf(EarlyWithdrawal(sender, withdrawal, n)), true, 0)]
  {
  }

  lemma OverdrawnHeld(db: DB, db3: DB, sender: Id, funding: LogId, withdrawal: LogId, n: nat)
    requires SumsOk(db) && SumsOk(db3) && db.escrow.events == map[] && db.escrow.settlements == map[] && db3.escrow.settlements == map[]
    requires db3.escrow.snapshots == db.escrow.snapshots && funding != withdrawal
    requires db3.escrow.events == map[funding := EventRow(EventDataOf(LateFunding(sender, funding, n)), false, 0)]
                                     [withdrawal := EventRow(EventDataOf(EarlyWithdrawal(sender, withdrawal, n)), true, 0)]
    requires HeldPool(db, sender).deposit == 0
    ensures Balance(db3, EscrowDeposit, sender, Eth) == -(n as int)
  {
    hide Total;
    var f := EventRow(EventDataOf(LateFunding(sender, funding, n)), false, 0);
    var w := EventRow(EventDataOf(EarlyWithdrawal(sender, withdrawal, n)), true, 0);
    var part := EventPart(EscrowDeposit, sender);
    Updated(db.escrow.events, part, funding, f);
    Updated(db.escrow.events[funding := f], part, withdrawal, w);
  }

  // ---- The run ----

  const FUNDING: LogId := LogId(NoHash, "funding", 0)
  const WITHDRAWAL: LogId := LogId(NoHash, "withdrawal", 0)

  /**
   * Opens a stream with an empty sender, applies the funding of block 10, then a
   * withdrawal of block 5, and rewinds to block 7.
   */
  function Overdrawing(stream: Id, sender: Id, n: nat, h: Hash): seq<Op> {
    [OpenChain(stream, Block(-1, NoHash), [Opening(sender, 0, 0)])] +
    [ApplyBlocks(stream, [Block(10, h)], [LateFunding(sender, FUNDING, n)], 1)] +
    [ApplyBlocks(stream, [Block(5, h)], [EarlyWithdrawal(sender, WITHDRAWAL, n)], 1)] +
    [Reorg(stream, Block(7, h), [], [FUNDING])]
  }

  /** Rows and balances are those of another state; only blocks and checkpoints differ. */
  ghost predicate SameRowsAs(db: DB, db': DB) {
    && db'.books == db.books && db'.escrow.snapshots == db.escrow.snapshots
    && db'.escrow.events == db.escrow.events && db'.escrow.settlements == db.escrow.settlements
  }

  lemma SameHeld(db: DB, db': DB, sender: Id)
    requires db'.books == db.books
    ensures HeldPool(db', sender) == HeldPool(db, sender)
  {
    hide Held;
  }

  /** A batch of one event is that event between two changes of the retained blocks. */
  lemma OneEventBatch(db: DB, stream: Id, b: Block, e: Event) returns (start: DB)
    requires EscrowInv(db) && Decoded(e)
    ensures SameRowsAs(db, start) && EscrowInv(start)
    ensures var r := ApplyChain(db, stream, [b], [e], 1);
            var a := ApplyEvent(start, e);
            (r.Ok? <==> a.Ok?) && (a.Ok? ==> SameRowsAs(a.value, r.value) && EscrowInv(r.value))
  {
    hide ApplyEvent, EscrowInv, PutBlocks, Decoded;
    var c := Chain(PutBlocks(ChainOf(db, stream).blocks, [b]), ChainOf(db, stream).checkpoint);
    start := WithChain(db, stream, c);
    ChainFrame(db, stream, c);
    assert [e][..0] == [];
    assert ApplyEvents(start, [e]) == ApplyEvent(start, e);
    ApplyChainKeeps(db, stream, [b], [e], 1);
  }

  lemma EmptyOpening(stream: Id, sender: Id) returns (db: DB)
    ensures BootstrapChain(EMPTY, stream, Block(-1, NoHash), [Opening(sender, 0, 0)]) == Ok(db) && EscrowInv(db)
    ensures db.escrow.events == map[] && db.escrow.settlements == map[]
    ensures db.escrow.snapshots == map[(stream, sender) := SnapshotRow(-1, NoHash, 0, 0)]
  {
    EmptySummary();
    EmptyEscrow();
    hide EscrowInv, Open, ZEROES;
    var o := Opening(sender, 0, 0);
    var anchor := Block(-1, NoHash);
    assert [o][..0] == [];
    assert OpenAll(EMPTY, stream, anchor, [o]) == Open(EMPTY, stream, anchor, o);
    OpenKeeps(EMPTY, stream, anchor, o);
    BootstrapKeeps(EMPTY, stream, anchor, [o]);
    db := BootstrapChain(EMPTY, stream, anchor, [o]).value;
  }

  lemma NothingHeld(db: DB, stream: Id, sender: Id)
    requires SumsOk(db) && db.escrow.events == map[] && db.escrow.settlements == map[]
    requires db.escrow.snapshots == map[(stream, sender) := SnapshotRow(-1, NoHash, 0, 0)]
    ensures HeldPool(db, sender).deposit == 0 && HeldPool(db, sender).reserve == 0
  {
    var d, r := OpeningPart(EscrowDeposit, sender), OpeningPart(EscrowReserve, sender);
    var row := SnapshotRow(-1, NoHash, 0, 0);
    assert OpeningEffect(row, EscrowDeposit) == 0 && OpeningEffect(row, EscrowReserve) == 0;
    forall k | k in db.escrow.snapshots ensures d(k, db.escrow.snapshots[k]) == 0 && r(k, db.escrow.snapshots[k]) == 0 { }
    AllZero(db.escrow.snapshots, d);
    AllZero(db.escrow.snapshots, r);
    assert Held(db.books.balances, Account(EscrowDeposit, sender, Eth)) == Replayed(db.escrow, EscrowDeposit, sender);
    assert Held(db.books.balances, Account(EscrowReserve, sender, Eth)) == Replayed(db.escrow, EscrowReserve, sender);
  }

  /** The first three writes leave a funded and emptied deposit. */
  lemma Emptied(stream: Id, sender: Id, n: nat, h: Hash) returns (db0: DB, db1: DB, db2: DB)
    ensures BootstrapChain(EMPTY, stream, Block(-1, NoHash), [Opening(sender, 0, 0)]) == Ok(db0)
    ensures ApplyChain(db0, stream, [Block(10, h)], [LateFunding(sender, FUNDING, n)], 1) == Ok(db1)
    ensures ApplyChain(db1, stream, [Block(5, h)], [EarlyWithdrawal(sender, WITHDRAWAL, n)], 1) == Ok(db2)
    ensures EscrowInv(db0) && EscrowInv(db2) && db0.escrow.events == map[] && db0.escrow.settlements == map[] && db2.escrow.settlements == map[]
    ensures db0.escrow.snapshots == db2.escrow.snapshots == map[(stream, sender) := SnapshotRow(-1, NoHash, 0, 0)]
    ensures HeldPool(db0, sender).deposit == 0 && HeldPool(db0, sender).reserve == 0
    ensures db2.escrow.events == map[FUNDING := EventRow(EventDataOf(LateFunding(sender, FUNDING, n)), true, 0)]
                                    [WITHDRAWAL := EventRow(EventDataOf(EarlyWithdrawal(sender, WITHDRAWAL, n)), true, 0)]
  {
    hide BootstrapChain, ApplyChain, ApplyEvent, EscrowInv, HeldPool, EventDataOf, ZEROES;
    db0 := EmptyOpening(stream, sender);
    InvParts(db0);
    NothingHeld(db0, stream, sender);
    var s0 := OneEventBatch(db0, stream, Block(10, h), LateFunding(sender, FUNDING, n));
    SameHeld(db0, s0, sender);
    var a0 := FundingApplies(s0, sender, FUNDING, n);
    db1 := ApplyChain(db0, stream, [Block(10, h)], [LateFunding(sender, FUNDING, n)], 1).value;
    SameHeld(a0, db1, sender);
    var s1 := OneEventBatch(db1, stream, Block(5, h), EarlyWithdrawal(sender, WITHDRAWAL, n));
    SameHeld(db1, s1, sender);
    var a1 := WithdrawalApplies(s1, sender, WITHDRAWAL, n);
    db2 := ApplyChain(db1, stream, [Block(5, h)], [EarlyWithdrawal(sender, WITHDRAWAL, n)], 1).value;
  }

  /**
   * From the empty database: a withdrawal of block 5 applied after a funding of block 10,
   * as the store alone allows, leaves a negative deposit once block 10 is orphaned.
   */
  lemma OutOfOrderOverdraws(stream: Id, sender: Id, n: nat, h: Hash)
    requires n > 0
    ensures var ops := Overdrawing(stream, sender, n, h);
            Valid(EMPTY, ops) && Balance(Run(EMPTY, ops), EscrowDeposit, sender, Eth) == -(n as int)
  {
    var db0, db1, db2 := Emptied(stream, sender, n, h);
    OnlyFundingAbove(db2, sender, FUNDING, WITHDRAWAL, n);
    RewindKeeps(db2, stream, Block(7, h), [], [FUNDING]);
    OpenBelow(db2, stream, sender, 7);
    RunOfFour(stream, sender, n, h, db0, db1, db2);
    hide Run, Valid, Overdrawing, Rewind, BootstrapChain, ApplyChain, EscrowInv, HeldPool, ListsEvents, ListsSettlements, RewoundRows, ChainWrite, Truncated, EventDataOf, ZEROES, Held;
    var db3 := Rewind(db2, stream, Block(7, h), [], [FUNDING]).value;
    InvParts(db0);
    InvParts(db3);
    FundingOrphaned(db2.escrow, db3.escrow, sender, FUNDING, WITHDRAWAL, n);
    OverdrawnHeld(db0, db3, sender, FUNDING, WITHDRAWAL, n);
  }

  lemma OpenBelow(db: DB, stream: Id, sender: Id, after: nat)
    requires db.escrow.snapshots == map[(stream, sender) := SnapshotRow(-1, NoHash, 0, 0)]
    ensures HasSnapshot(db, stream) && !BeforeAnchors(db, stream, after)
  {
    assert (stream, sender) in db.escrow.snapshots;
  }

  lemma RunOfFour(stream: Id, sender: Id, n: nat, h: Hash, db0: DB, db1: DB, db2: DB)
    requires BootstrapChain(EMPTY, stream, Block(-1, NoHash), [Opening(sender, 0, 0)]) == Ok(db0)
    requires ApplyChain(db0, stream, [Block(10, h)], [LateFunding(sender, FUNDING, n)], 1) == Ok(db1)
    requires ApplyChain(db1, stream, [Block(5, h)], [EarlyWithdrawal(sender, WITHDRAWAL, n)], 1) == Ok(db2)
    requires ListsSettlements(db2, [], 7) && ListsEvents(db2, [FUNDING], 7) && Rewind(db2, stream, Block(7, h), [], [FUNDING]).Ok?
    ensures var ops := Overdrawing(stream, sender, n, h);
            Valid(EMPTY, ops) && Run(EMPTY, ops) == Rewind(db2, stream, Block(7, h), [], [FUNDING]).value
  {
    hide BootstrapChain, ApplyChain, Rewind, ListsSettlements, ListsEvents, ZEROES;
    var a := [OpenChain(stream, Block(-1, NoHash), [Opening(sender, 0, 0)])];
    var b := ApplyBlocks(stream, [Block(10, h)], [LateFunding(sender, FUNDING, n)], 1);
    var c := ApplyBlocks(stream, [Block(5, h)], [EarlyWithdrawal(sender, WITHDRAWAL, n)], 1);
    RunSnoc(EMPTY, [], a[0]);
    assert [] + [a[0]] == a;
    RunSnoc(EMPTY, a, b);
    RunSnoc(EMPTY, a + [b], c);
    RunSnoc(EMPTY, a + [b] + [c], Reorg(stream, Block(7, h), [], [FUNDING]));
  }
}

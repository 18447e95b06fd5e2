/**
 * What opening a stream writes (internal/store/settlements.go:54-95): the balances that
 * getSenderInfo answered, row by row and account by account.
 */
module Openings {
  import opened Results
  import opened Blocks
  import opened Tables
  import opened Books
  import opened Summaries
  import opened EscrowStore
  import opened EscrowLedger
  import opened EscrowSteps
  import opened Rewinds
  import opened Bootstrap

  /** A sender's row holds what was answered for it at the anchor, and its accounts moved by as much. */
  ghost predicate OpenedWith(db: DB, db': DB, stream: Id, anchor: Block, o: Opening) {
    && (stream, o.sender) in db'.escrow.snapshots
    && db'.escrow.snapshots[(stream, o.sender)] == SnapshotRow(anchor.number, anchor.hash, o.deposit, o.reserve)
    && Balance(db', EscrowDeposit, o.sender, Eth) == Balance(db, EscrowDeposit, o.sender, Eth) + o.deposit
    && Balance(db', EscrowReserve, o.sender, Eth) == Balance(db, EscrowReserve, o.sender, Eth) + o.reserve
    && Balance(db', TreasuryCash, o.sender, Eth) == Balance(db, TreasuryCash, o.sender, Eth) - o.deposit - o.reserve
  }

  predicate Listed(snapshots: seq<Opening>, sender: Id) {
    exists o :: o in snapshots && o.sender == sender
  }

  /** Every other account, and every row that was there, is as before. */
  ghost predicate OthersKept(db: DB, db': DB, stream: Id, snapshots: seq<Opening>) {
    && (forall a: Account :: Held(db'.books.balances, a) != Held(db.books.balances, a) ==>
          a.currency == Eth && a.kind in {EscrowDeposit, EscrowReserve, TreasuryCash} && Listed(snapshots, a.owner))
    && forall k :: k in db'.escrow.snapshots && !(k.0 == stream && Listed(snapshots, k.1)) ==>
         k in db.escrow.snapshots && db'.escrow.snapshots[k] == db.escrow.snapshots[k]
  }

  lemma SummaryIn(db: DB)
    requires EscrowInv(db)
    ensures SummaryOk(db)
  {
    hide SummaryOk, BooksOk, SumsOk, LedgerOk, AgreeOk, SnapshotKeysOk;
  }

  lemma OneOpening(db: DB, stream: Id, anchor: Block, o: Opening)
    requires EscrowInv(db) && (stream, o.sender) !in db.escrow.snapshots
    ensures Open(db, stream, anchor, o).Ok?
    ensures OpenedWith(db, Open(db, stream, anchor, o).value, stream, anchor, o)
    ensures OthersKept(db, Open(db, stream, anchor, o).value, stream, [o])
  {
    hide *;
    OpenKeeps(db, stream, anchor, o);
    OpenShape(db, stream, anchor, o);
    SummaryIn(db);
    var row := SnapshotRow(anchor.number, anchor.hash, o.deposit, o.reserve);
    RegisterKeeps(db, stream, o.sender, row);
    PostOpeningEffect(RegisterEscrowMetrics(WithSnapshot(db, stream, o.sender, row), stream, o.sender).value, stream, o);
    WithRow(db, stream, o.sender, row);
    OneOpened(db, Open(db, stream, anchor, o).value, stream, anchor, o);
  }

  lemma WithRow(db: DB, stream: Id, sender: Id, row: SnapshotRow)
    ensures var db1 := WithSnapshot(db, stream, sender, row);
            db1.books == db.books && db1.escrow == db.escrow.(snapshots := db.escrow.snapshots[(stream, sender) := row])
  {
  }

  lemma OneOpened(db: DB, db': DB, stream: Id, anchor: Block, o: Opening)
    requires db'.escrow.snapshots == db.escrow.snapshots[(stream, o.sender) := SnapshotRow(anchor.number, anchor.hash, o.deposit, o.reserve)]
    requires forall a :: Held(db'.books.balances, a) == Held(db.books.balances, a) +
               (if a.owner == o.sender && a.currency == Eth then OpeningEffect(SnapshotRow(0, NoHash, o.deposit, o.reserve), a.kind) else 0)
    ensures OpenedWith(db, db', stream, anchor, o) && OthersKept(db, db', stream, [o])
  {
    hide Held;
    assert o in [o];
  }

  lemma {:induction false} AllOpened(db: DB, stream: Id, anchor: Block, snapshots: seq<Opening>)
    requires EscrowInv(db) && Openable(db, stream, snapshots)
    ensures OpenAll(db, stream, anchor, snapshots).Ok?
    ensures forall o :: o in snapshots ==> OpenedWith(db, OpenAll(db, stream, anchor, snapshots).value, stream, anchor, o)
    ensures OthersKept(db, OpenAll(db, stream, anchor, snapshots).value, stream, snapshots)
  {
    hide *;
    OpenAllKeep(db, stream, anchor, snapshots);
    if snapshots == [] {
      NothingOpened(db, stream, anchor);
    } else {
      var front, last := snapshots[..|snapshots| - 1], snapshots[|snapshots| - 1];
      OpenableFront(db, stream, snapshots);
      NotListed(front, last.sender);
      AllOpened(db, stream, anchor, front);
      OpenAllKeep(db, stream, anchor, front);
      var db1 := OpenAll(db, stream, anchor, front).value;
      OneOpening(db1, stream, anchor, last);
      OpenKeeps(db1, stream, anchor, last);
      OpenAllShape(db, stream, anchor, snapshots);
      OpenedNext(db, db1, Open(db1, stream, anchor, last).value, stream, anchor, front, last);
      assert snapshots == front + [last];
    }
  }

  lemma NothingOpened(db: DB, stream: Id, anchor: Block)
    ensures OpenAll(db, stream, anchor, []) == Ok(db) && OthersKept(db, db, stream, [])
  {
    hide Held;
  }

  lemma OpenAllShape(db: DB, stream: Id, anchor: Block, snapshots: seq<Opening>)
    requires snapshots != [] && OpenAll(db, stream, anchor, snapshots[..|snapshots| - 1]).Ok?
    ensures OpenAll(db, stream, anchor, snapshots) ==
            Open(OpenAll(db, stream, anchor, snapshots[..|snapshots| - 1]).value, stream, anchor, snapshots[|snapshots| - 1])
  {
    hide Open;
  }

  lemma NotListed(snapshots: seq<Opening>, sender: Id)
    requires !(exists o :: o in snapshots && o.sender == sender)
    ensures !Listed(snapshots, sender)
  {
  }

  lemma OpenedNext(db: DB, db1: DB, db': DB, stream: Id, anchor: Block, front: seq<Opening>, last: Opening)
    requires !Listed(front, last.sender)
    requires forall o :: o in front ==> OpenedWith(db, db1, stream, anchor, o)
    requires OthersKept(db, db1, stream, front)
    requires OpenedWith(db1, db', stream, anchor, last) && OthersKept(db1, db', stream, [last])
    requires forall k :: k in db1.escrow.snapshots ==> k in db'.escrow.snapshots
    ensures forall o :: o in front + [last] ==> OpenedWith(db, db', stream, anchor, o)
    ensures OthersKept(db, db', stream, front + [last])
  {
    hide Held;
    forall sender ensures Listed(front + [last], sender) <==> Listed(front, sender) || sender == last.sender {
      if Listed(front, sender) {
        var o :| o in front && o.sender == sender;
        assert o in front + [last];
      }
      assert last in front + [last];
    }
    forall sender ensures Listed([last], sender) <==> sender == last.sender { assert last in [last]; }
    hide Listed;
    forall o | o in front ensures OpenedWith(db, db', stream, anchor, o) { assert Listed(front, o.sender) by { ListedBy(front, o); } }
  }

  lemma ListedBy(snapshots: seq<Opening>, o: Opening)
    requires o in snapshots
    ensures Listed(snapshots, o.sender)
  {
  }

  /**
   * After a bootstrap every sender of the list has a row with its answered deposit and
   * reserve, which its escrow accounts received; no other account and no older row changed.
   */
  lemma OpeningsAreStored(db: DB, stream: Id, anchor: Block, snapshots: seq<Opening>)
    requires EscrowInv(db) && BootstrapChain(db, stream, anchor, snapshots).Ok?
    ensures var db' := BootstrapChain(db, stream, anchor, snapshots).value;
            && (forall o :: o in snapshots ==> OpenedWith(db, db', stream, anchor, o))
            && OthersKept(db, db', stream, snapshots)
            && ChainOf(db', stream).checkpoint == Some(Checkpoint(anchor.number + 1, anchor.hash))
  {
    hide *;
    BootstrapKeeps(db, stream, anchor, snapshots);
    BootstrapShape(db, stream, anchor, snapshots);
    var db1 := Anchored(db, stream, anchor);
    AnchoredKeeps(db, stream, anchor);
    SameOpenable(db, db1, stream, snapshots);
    AllOpened(db1, stream, anchor, snapshots);
    OpenedThrough(db, db1, OpenAll(db1, stream, anchor, snapshots).value, BootstrapChain(db, stream, anchor, snapshots).value, stream, anchor, snapshots);
    CheckpointIn(db, BootstrapChain(db, stream, anchor, snapshots).value, stream, anchor);
  }

  /** The stream with its anchor block. */
  function Anchored(db: DB, stream: Id, anchor: Block): DB {
    var c := ChainOf(db, stream);
    if anchor.number >= 0 then WithChain(db, stream, c.(blocks := c.blocks[anchor.number := anchor.hash])) else db
  }

  lemma AnchoredKeeps(db: DB, stream: Id, anchor: Block)
    requires EscrowInv(db)
    ensures EscrowInv(Anchored(db, stream, anchor))
    ensures Anchored(db, stream, anchor).books == db.books && Anchored(db, stream, anchor).escrow.snapshots == db.escrow.snapshots
  {
    hide EscrowInv;
    var c := ChainOf(db, stream);
    if anchor.number >= 0 { ChainFrame(db, stream, c.(blocks := c.blocks[anchor.number := anchor.hash])); }
  }

  lemma BootstrapShape(db: DB, stream: Id, anchor: Block, snapshots: seq<Opening>)
    requires BootstrapChain(db, stream, anchor, snapshots).Ok?
    ensures var r := OpenAll(Anchored(db, stream, anchor), stream, anchor, snapshots);
            r.Ok? && var db' := BootstrapChain(db, stream, anchor, snapshots).value;
            db'.books == r.value.books && db'.escrow.snapshots == r.value.escrow.snapshots
  {
    hide OpenAll;
  }

  lemma OpenedThrough(db: DB, db1: DB, db2: DB, db': DB, stream: Id, anchor: Block, snapshots: seq<Opening>)
    requires db1.books == db.books && db1.escrow.snapshots == db.escrow.snapshots
    requires db'.books == db2.books && db'.escrow.snapshots == db2.escrow.snapshots
    requires (forall o :: o in snapshots ==> OpenedWith(db1, db2, stream, anchor, o)) && OthersKept(db1, db2, stream, snapshots)
    ensures (forall o :: o in snapshots ==> OpenedWith(db, db', stream, anchor, o)) && OthersKept(db, db', stream, snapshots)
  {
    hide Held, Listed;
  }

  lemma CheckpointIn(db: DB, db': DB, stream: Id, anchor: Block)
    requires OpenedAt(db, db', stream, anchor)
    ensures ChainOf(db', stream).checkpoint == Some(Checkpoint(anchor.number + 1, anchor.hash))
  {
  }

  lemma SameOpenable(db: DB, db1: DB, stream: Id, snapshots: seq<Opening>)
    requires db1.escrow.snapshots == db.escrow.snapshots && Openable(db, stream, snapshots)
    ensures Openable(db1, stream, snapshots)
  {
  }
}

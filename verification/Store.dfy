/**
 * The store as it works: tables updated in place inside a write, and restored as they
 * were when the write fails. Each method is proved against the function that specifies
 * it, whose properties the other modules prove.
 */
module StoreState {
  import opened Results
  import opened Blocks
  import opened Tables
  import B = Books
  import S = Summaries
  import A = Attribution
  import E = EscrowStore
  import M = Management
  import G = Ingestion
  import Z = Authorize
  import I = Idempotent
  import KafkaLag

  /** An error return agrees with the outcome of the specification. */
  predicate Did<T>(error: Option<Error>, r: Outcome<T>) {
    error == match r { case Ok(_) => None case Err(e) => Some(e) }
  }

  datatype Entry = Entry(account: Account, delta: int)

  class Store {
    var books: Books
    var summary: Summary
    var budget: Budget
    var usage: Usage
    var escrow: Escrow

    function View(): DB
      reads this
    {
      DB(books, summary, budget, usage, escrow)
    }

    constructor (db: DB)
      ensures View() == db
    {
      books, summary, budget, usage, escrow := db.books, db.summary, db.budget, db.usage, db.escrow;
    }

    /** What Store.Write's rollback restores. */
    method Restore(saved: DB)
      modifies this
      ensures View() == saved
    {
      books, summary, budget, usage, escrow := saved.books, saved.summary, saved.budget, saved.usage, saved.escrow;
    }

    // ---- internal/store/metrics.go ----

    method ChangeMetricCount(key: CountKey, delta: int) returns (error: Option<Error>)
      modifies this`summary
      ensures var r := B.ChangeCount(old(summary), key, delta);
              Did(error, r) && (r.Ok? ==> summary == r.value)
    {
      if delta == 0 {
        return None;
      }
      if delta < 0 && key !in summary.counts {
        return Some(NoRows);
      }
      var value := if key in summary.counts then summary.counts[key] else 0;
      if value + delta < 0 {
        return Some(CountBelowZero);
      }
      summary := summary.(counts := summary.counts[key := value + delta]);
      return None;
    }

    method ChangeMetricAmount(name: AmountName, currency: Currency, delta: int) returns (error: Option<Error>)
      modifies this`summary
      ensures var r := B.ChangeAmount(old(summary), name, currency, delta);
              Did(error, r) && (r.Ok? ==> summary == r.value)
    {
      if delta == 0 {
        return None;
      }
      if (name, currency) !in summary.amounts {
        return Some(NoRows);
      }
      summary := summary.(amounts := summary.amounts[(name, currency) := summary.amounts[(name, currency)] + delta]);
      return None;
    }

    method ChangeInventory(before: Option<CountKey>, next: CountKey) returns (error: Option<Error>)
      modifies this`summary
      ensures var r := M.ChangeInventory(old(summary), before, next);
              Did(error, r) && (r.Ok? ==> summary == r.value)
    {
      if before == Some(next) {
        return None;
      }
      if before.Some? {
        error := ChangeMetricCount(before.value, -1);
        if error.Some? {
          return;
        }
      }
      error := ChangeMetricCount(next, 1);
    }

    // ---- internal/store/store.go ----

    method UpdateBalanceMetrics(a: Account, before: int, next: int) returns (error: Option<Error>)
      modifies this`summary
      ensures var r := B.UpdateBalanceMetrics(old(summary), budget.allocations, a, before, next);
              Did(error, r) && (r.Ok? ==> summary == r.value)
    {
      var delta := next - before;
      match a.kind {
        case GrantUnallocated =>
          error := ChangeMetricAmount(Sum(a.kind), a.currency, delta);
        case AllocationAvailable =>
          error := UpdateAvailable(a, before, next);
        case AllocationSpent =>
          if a.owner !in budget.allocations || budget.allocations[a.owner].currency != a.currency {
            return None;
          }
          error := ChangeMetricAmount(Sum(a.kind), a.currency, delta);
        case EscrowDeposit =>
          error := UpdateTracked(a, before, next);
        case EscrowReserve =>
          error := UpdateTracked(a, before, next);
        case _ =>
          return None;
      }
    }

    method UpdateAvailable(a: Account, before: int, next: int) returns (error: Option<Error>)
      requires a.kind == AllocationAvailable
      modifies this`summary
      ensures var r := B.UpdateBalanceMetrics(old(summary), budget.allocations, a, before, next);
              Did(error, r) && (r.Ok? ==> summary == r.value)
    {
      hide B.ChangeCount, B.ChangeAmount;
      if a.owner !in budget.allocations || budget.allocations[a.owner].currency != a.currency {
        return None;
      }
      error := ChangeMetricAmount(Sum(a.kind), a.currency, next - before);
      if error.Some? {
        return;
      }
      error := ChangeMetricAmount(AllocationOverdraw, a.currency, B.Overdraw(next) - B.Overdraw(before));
      if error.Some? {
        return;
      }
      error := ChangeMetricCount(AllocationsOverdrawn(a.currency), B.BoolCount(next < 0) - B.BoolCount(before < 0));
      if error.Some? {
        return;
      }
      var key := TrackedKey(a.kind, AllocationSource(a.owner), a.currency);
      if next < 0 {
        summary := summary.(tracked := summary.tracked[key := Tracked(a.owner, next)]);
      } else if before < 0 {
        summary := summary.(tracked := summary.tracked - {key});
      }
    }

    method UpdateTracked(a: Account, before: int, next: int) returns (error: Option<Error>)
      modifies this`summary
      ensures var r := B.UpdateEscrowMetrics(old(summary), a, before, next);
              Did(error, r) && (r.Ok? ==> summary == r.value)
    {
      if a.currency != Eth {
        return None;
      }
      var tracked := |B.TrackedRows(summary, a.kind, a.owner, a.currency)|;
      summary := summary.(tracked := B.Retracked(summary, a.kind, a.owner, a.currency, next));
      if tracked == 0 {
        return None;
      }
      error := ChangeMetricAmount(Sum(a.kind), a.currency, (next - before) * tracked);
      if error.Some? {
        return;
      }
      error := ChangeMetricCount(EscrowUnfunded(a.kind), tracked * (B.BoolCount(next == 0) - B.BoolCount(before == 0)));
    }

    /** One ledger entry: the cached balance, then the summaries. */
    method Post(a: Account, delta: int) returns (error: Option<Error>)
      modifies this`books, this`summary
      ensures var r := B.Adjust(old(View()), a, delta);
              Did(error, r) && (r.Ok? ==> View() == r.value)
    {
      hide B.UpdateBalanceMetrics;
      var before := B.Held(books.balances, a);
      books := books.(balances := books.balances[a := before + delta]);
      error := UpdateBalanceMetrics(a, before, before + delta);
    }

    /** The posting primitive: a transaction with its two equal, opposite entries. */
    method Transfer(key: Key, debit: Kind, debitOwner: Id, credit: Kind, creditOwner: Id, currency: Currency, n: int)
      returns (error: Option<Error>)
      modifies this`books, this`summary
      ensures var r := B.Transfer(old(View()), key, debit, debitOwner, credit, creditOwner, currency, n);
              Did(error, r) && (r.Ok? ==> View() == r.value)
    {
      hide B.Adjust;
      if n < 0 {
        return Some(NegativeTransfer);
      }
      if n == 0 {
        return None;
      }
      if key in books.postings {
        return Some(DuplicateKey);
      }
      var d, c := Account(debit, debitOwner, currency), Account(credit, creditOwner, currency);
      books := books.(postings := books.postings[key := Posting(d, c, n)]);
      ghost var entered := View();
      var entries := [Entry(d, -n), Entry(c, n)];
      var i := 0;
      while i < |entries|
        invariant 0 <= i <= 2 && entries == [Entry(d, -n), Entry(c, n)]
        invariant i == 0 ==> View() == entered
        invariant i == 1 ==> B.Adjust(entered, d, -n) == Ok(View())
        invariant i == 2 ==> B.Transfer(old(View()), key, debit, debitOwner, credit, creditOwner, currency, n) == Ok(View())
      {
        error := Post(entries[i].account, entries[i].delta);
        if error.Some? {
          return;
        }
        i := i + 1;
      }
      return None;
    }

    // ---- internal/store/ingest.go: rematch ----

    method Regroup(settled: bool, before: MatchTag, next: MatchTag, n: nat) returns (error: Option<Error>)
      modifies this`summary
      ensures var r := A.Regroup(old(summary), settled, before, next, n);
              Did(error, r) && (r.Ok? ==> summary == r.value)
    {
      if before == next {
        return None;
      }
      error := ChangeMetricCount(Settlements(settled, before), -(n as int));
      if error.Some? {
        return;
      }
      error := ChangeMetricCount(Settlements(settled, next), n);
    }

    /** The buckets of one status, in the order the query groups them. */
    method RegroupState(pm: Id, orch: Id, wanted: Match, settled: bool) returns (error: Option<Error>)
      modifies this`summary
      ensures var r := A.RegroupState(old(summary), escrow.settlements, pm, orch, wanted, settled);
              Did(error, r) && (r.Ok? ==> summary == r.value)
    {
      hide A.Regroup, A.Bucket;
      var tags := [AmbiguousTag, MatchedTag, UnmatchedTag];
      ghost var rows := escrow.settlements;
      ghost var s0 := summary;
      ghost var to := S.Tag(wanted);
      ghost var r1 := A.Regroup(s0, settled, AmbiguousTag, to, |A.Bucket(rows, pm, orch, wanted, settled, AmbiguousTag)|);
      ghost var r2 := if r1.Err? then r1 else A.Regroup(r1.value, settled, MatchedTag, to, |A.Bucket(rows, pm, orch, wanted, settled, MatchedTag)|);
      ghost var r3 := if r2.Err? then r2 else A.Regroup(r2.value, settled, UnmatchedTag, to, |A.Bucket(rows, pm, orch, wanted, settled, UnmatchedTag)|);
      var i := 0;
      while i < |tags|
        invariant 0 <= i <= 3 && tags == [AmbiguousTag, MatchedTag, UnmatchedTag] && escrow.settlements == rows
        invariant i == 0 ==> summary == s0
        invariant i == 1 ==> r1 == Ok(summary)
        invariant i == 2 ==> r2 == Ok(summary)
        invariant i == 3 ==> r3 == Ok(summary)
      {
        error := Regroup(settled, tags[i], S.Tag(wanted), |A.Bucket(escrow.settlements, pm, orch, wanted, settled, tags[i])|);
        if error.Some? {
          return;
        }
        i := i + 1;
      }
      return None;
    }

    method Rematch(pm: Id, orch: Id) returns (error: Option<Error>)
      modifies this`summary, this`escrow
      ensures var r := A.Rematch(old(View()), pm, orch);
              Did(error, r) && (r.Ok? ==> View() == r.value)
    {
      hide A.RegroupState, A.SessionsFor, A.WantedMatch, A.Rewritten;
      var wanted := A.WantedMatch(A.SessionsFor(usage, pm, orch));
      error := RegroupState(pm, orch, wanted, false);
      if error.Some? {
        return;
      }
      error := RegroupState(pm, orch, wanted, true);
      if error.Some? {
        return;
      }
      escrow := escrow.(settlements := A.Rewritten(escrow.settlements, pm, orch, wanted));
    }

    // ---- internal/store/settlements.go ----

    method SetCheckpoint(stream: Id, next: int, hash: Hash)
      modifies this`escrow
      ensures View() == E.SetCheckpoint(old(View()), stream, next, hash)
    {
      var c := if stream in escrow.chains then escrow.chains[stream] else Chain(map[], None);
      escrow := escrow.(chains := escrow.chains[stream := c.(checkpoint := Some(Checkpoint(next, hash)))]);
    }

    method UpdateSettlementMetrics(before: Option<bool>, next: bool, tag: MatchTag, face: nat, paid: nat) returns (error: Option<Error>)
      modifies this`summary
      ensures var r := E.UpdateSettlementMetrics(old(summary), before, next, tag, face, paid);
              Did(error, r) && (r.Ok? ==> summary == r.value)
    {
      hide B.ChangeCount, B.ChangeAmount;
      if before == Some(next) {
        return None;
      }
      if before.Some? {
        error := ChangeMetricCount(Settlements(before.value, tag), -1);
        if error.Some? {
          return;
        }
      }
      error := ChangeMetricCount(Settlements(next, tag), 1);
      if error.Some? {
        return;
      }
      var sign := B.BoolCount(next) - B.BoolCount(before == Some(true));
      var shortfall := S.Shortfall(face, paid);
      var items := [(SettlementFaceValue, face * sign), (SettlementPaid, paid * sign), (SettlementShortfall, shortfall * sign)];
      ghost var s2 := summary;
      ghost var r3 := B.ChangeAmount(s2, SettlementFaceValue, Eth, face * sign);
      ghost var r4 := if r3.Err? then r3 else B.ChangeAmount(r3.value, SettlementPaid, Eth, paid * sign);
      ghost var r5 := if r4.Err? then r4 else B.ChangeAmount(r4.value, SettlementShortfall, Eth, shortfall * sign);
      var i := 0;
      while i < |items|
        invariant 0 <= i <= 3
        invariant items == [(SettlementFaceValue, face * sign), (SettlementPaid, paid * sign), (SettlementShortfall, shortfall * sign)]
        invariant i == 0 ==> summary == s2
        invariant i == 1 ==> r3 == Ok(summary)
        invariant i == 2 ==> r4 == Ok(summary)
        invariant i == 3 ==> r5 == Ok(summary)
      {
        error := ChangeMetricAmount(items[i].0, Eth, items[i].1);
        if error.Some? {
          return;
        }
        i := i + 1;
      }
      error := ChangeMetricCount(SettlementsUnderpaid, sign * B.BoolCount(shortfall > 0));
    }

    method RegisterBucket(stream: Id, sender: Id, kind: Kind) returns (error: Option<Error>)
      modifies this`summary
      ensures var r := E.RegisterBucket(old(View()), stream, sender, kind);
              Did(error, r) && (r.Ok? ==> View() == r.value)
    {
      hide B.ChangeCount, B.ChangeAmount;
      var balance := B.Balance(View(), kind, sender, Eth);
      var key := TrackedKey(kind, SnapshotSource(stream, sender), Eth);
      if key in summary.tracked {
        return Some(UniqueViolation);
      }
      summary := summary.(tracked := summary.tracked[key := Tracked(sender, balance)]);
      error := ChangeMetricAmount(Sum(kind), Eth, balance);
      if error.Some? {
        return;
      }
      error := ChangeMetricCount(EscrowUnfunded(kind), B.BoolCount(balance == 0));
    }

    method RegisterEscrowMetrics(stream: Id, sender: Id) returns (error: Option<Error>)
      modifies this`summary
      ensures var r := E.RegisterEscrowMetrics(old(View()), stream, sender);
              Did(error, r) && (r.Ok? ==> View() == r.value)
    {
      hide E.RegisterBucket;
      var buckets := [EscrowDeposit, EscrowReserve];
      var i := 0;
      while i < |buckets|
        invariant 0 <= i <= 2 && buckets == [EscrowDeposit, EscrowReserve]
        invariant i == 0 ==> View() == old(View())
        invariant i == 1 ==> E.RegisterBucket(old(View()), stream, sender, EscrowDeposit) == Ok(View())
        invariant i == 2 ==> E.RegisterEscrowMetrics(old(View()), stream, sender) == Ok(View())
      {
        error := RegisterBucket(stream, sender, buckets[i]);
        if error.Some? {
          return;
        }
        i := i + 1;
      }
      return None;
    }

    method Open(stream: Id, anchor: Block, o: E.Opening) returns (error: Option<Error>)
      modifies this`books, this`summary, this`escrow
      ensures var r := E.Open(old(View()), stream, anchor, o);
              Did(error, r) && (r.Ok? ==> View() == r.value)
    {
      hide B.Transfer, E.RegisterEscrowMetrics;
      if (stream, o.sender) in escrow.snapshots {
        return Some(UniqueViolation);
      }
      var row := SnapshotRow(anchor.number, anchor.hash, o.deposit, o.reserve);
      escrow := escrow.(snapshots := escrow.snapshots[(stream, o.sender) := row]);
      error := RegisterEscrowMetrics(stream, o.sender);
      if error.Some? {
        return;
      }
      error := Transfer(SnapshotKey(stream, o.sender, Deposit), TreasuryCash, o.sender, EscrowDeposit, o.sender, Eth, o.deposit);
      if error.Some? {
        return;
      }
      error := Transfer(SnapshotKey(stream, o.sender, Reserve), TreasuryCash, o.sender, EscrowReserve, o.sender, Eth, o.reserve);
    }

    method OpenStream(stream: Id, anchor: Block, snapshots: seq<E.Opening>) returns (error: Option<Error>)
      modifies this`books, this`summary, this`escrow
      ensures var r := E.BootstrapChain(old(View()), stream, anchor, snapshots);
              Did(error, r) && (r.Ok? ==> View() == r.value)
    {
      hide E.Open;
      if snapshots == [] {
        return Some(EmptySnapshot);
      }
      var c := E.ChainOf(View(), stream);
      if anchor.number >= 0 {
        if anchor.hash == NoHash {
          return Some(InvalidAnchor);
        }
        if anchor.number in c.blocks {
          return Some(UniqueViolation);
        }
        escrow := escrow.(chains := escrow.chains[stream := c.(blocks := c.blocks[anchor.number := anchor.hash])]);
      } else if anchor.number != -1 || anchor.hash != NoHash {
        return Some(InvalidAnchor);
      }
      ghost var started := View();
      var i := 0;
      while i < |snapshots|
        invariant 0 <= i <= |snapshots|
        invariant E.OpenAll(started, stream, anchor, snapshots[..i]) == Ok(View())
      {
        OpenPrefixes(started, stream, anchor, snapshots, i);
        error := Open(stream, anchor, snapshots[i]);
        if error.Some? {
          return;
        }
        i := i + 1;
      }
      assert snapshots[..i] == snapshots;
      SetCheckpoint(stream, anchor.number + 1, anchor.hash);
      return None;
    }

    method BootstrapChain(stream: Id, anchor: Block, snapshots: seq<E.Opening>) returns (error: Option<Error>)
      modifies this
      ensures var r := E.BootstrapChain(old(View()), stream, anchor, snapshots);
              Did(error, r) && View() == if r.Ok? then r.value else old(View())
    {
      hide E.BootstrapChain;
      var saved := View();
      error := OpenStream(stream, anchor, snapshots);
      if error.Some? {
        Restore(saved);
      }
    }

    method PaySettlement(s: Settlement, generation: nat) returns (error: Option<Error>)
      modifies this`books, this`summary, this`escrow
      ensures var r := E.PaySettlement(old(View()), s, generation);
              Did(error, r) && (r.Ok? ==> View() == r.value)
    {
      hide B.Transfer, A.Rematch;
      if s.depositPaid != E.Lesser(s.face, B.Balance(View(), EscrowDeposit, s.sender, Eth)) {
        return Some(BalanceMismatch);
      }
      if B.Balance(View(), EscrowReserve, s.sender, Eth) < s.reservePaid {
        return Some(InsufficientReserve);
      }
      error := Transfer(RowKey(SettlementRows, false, s.log, generation, Deposit),
                        EscrowDeposit, s.sender, TreasurySettledSpend, s.sender, Eth, s.depositPaid);
      if error.Some? {
        return;
      }
      error := Transfer(RowKey(SettlementRows, false, s.log, generation, Reserve),
                        EscrowReserve, s.sender, TreasurySettledSpend, s.sender, Eth, s.reservePaid);
      if error.Some? {
        return;
      }
      error := Rematch(s.ticket.pm, s.recipient);
    }

    method ApplySettlement(s: Settlement) returns (error: Option<Error>)
      modifies this`books, this`summary, this`escrow
      ensures var r := E.ApplySettlement(old(View()), s);
              Did(error, r) && (r.Ok? ==> View() == r.value)
    {
      hide E.PaySettlement, E.UpdateSettlementMetrics;
      var d := E.SettlementDataOf(s);
      if s.depositPaid + s.reservePaid != s.paid || s.paid > s.face {
        return Some(InvalidSplit);
      }
      var before: Option<bool> := None;
      var generation, matching := 0, Unmatched;
      if s.log in escrow.settlements {
        var stored := escrow.settlements[s.log];
        if stored.data != d {
          return Some(IdentityReused);
        }
        if stored.settled {
          return None;
        }
        before, generation, matching := Some(false), stored.generation + 1, stored.matching;
      }
      escrow := escrow.(settlements := escrow.settlements[s.log := SettlementRow(d, matching, true, generation)]);
      error := UpdateSettlementMetrics(before, true, S.Tag(matching), s.face, s.paid);
      if error.Some? {
        return;
      }
      error := PaySettlement(s, generation);
    }

    method PostEvent(id: LogId, generation: nat, d: EventData) returns (error: Option<Error>)
      modifies this`books, this`summary
      ensures var r := E.PostEvent(old(View()), id, generation, d);
              Did(error, r) && (r.Ok? ==> View() == r.value)
    {
      hide B.Transfer;
      match d.kind {
        case DepositFunded =>
          error := Transfer(RowKey(EventRows, false, id, generation, Only), TreasuryCash, d.sender, EscrowDeposit, d.sender, Eth, d.amount);
        case ReserveFunded =>
          error := Transfer(RowKey(EventRows, false, id, generation, Only), TreasuryCash, d.sender, EscrowReserve, d.sender, Eth, d.amount);
        case Withdrawal =>
          if B.Balance(View(), EscrowDeposit, d.sender, Eth) != d.depositAmount || B.Balance(View(), EscrowReserve, d.sender, Eth) != d.reserveAmount {
            return Some(BalanceMismatch);
          }
          error := Transfer(RowKey(EventRows, false, id, generation, Deposit), EscrowDeposit, d.sender, TreasuryCash, d.sender, Eth, d.depositAmount);
          if error.Some? {
            return;
          }
          error := Transfer(RowKey(EventRows, false, id, generation, Reserve), EscrowReserve, d.sender, TreasuryCash, d.sender, Eth, d.reserveAmount);
        case _ =>
          return None;
      }
    }

    method ApplyEvent(e: Event) returns (error: Option<Error>)
      modifies this`books, this`summary, this`escrow
      ensures var r := E.ApplyEvent(old(View()), e);
              Did(error, r) && (r.Ok? ==> View() == r.value)
    {
      hide E.PostEvent, E.ApplySettlement;
      var generation := 0;
      if e.log in escrow.events {
        var stored := escrow.events[e.log];
        if stored.data != E.EventDataOf(e) {
          return Some(IdentityReused);
        }
        if stored.canonical {
          if e.kind != WinningTicketRedeemed {
            return None;
          }
          if e.settlement.None? {
            return Some(MissingSettlement);
          }
          error := ApplySettlement(e.settlement.value);
          return;
        }
        generation := stored.generation + 1;
      }
      escrow := escrow.(events := escrow.events[e.log := EventRow(E.EventDataOf(e), true, generation)]);
      if e.kind == WinningTicketRedeemed {
        if e.settlement.None? {
          return Some(MissingSettlement);
        }
        error := ApplySettlement(e.settlement.value);
      } else {
        error := PostEvent(e.log, generation, E.EventDataOf(e));
      }
    }

    method WriteBlocks(stream: Id, blocks: seq<Block>)
      modifies this`escrow
      ensures View() == E.WithChain(old(View()), stream, E.ChainOf(old(View()), stream).(
                          blocks := E.PutBlocks(E.ChainOf(old(View()), stream).blocks, blocks)))
    {
      var c := E.ChainOf(View(), stream);
      var stored := c.blocks;
      var i := 0;
      while i < |blocks|
        invariant 0 <= i <= |blocks|
        invariant stored == E.PutBlocks(c.blocks, blocks[..i])
      {
        stored := stored[blocks[i].number := blocks[i].hash];
        assert blocks[..i + 1][..i] == blocks[..i];
        i := i + 1;
      }
      assert blocks[..i] == blocks;
      escrow := escrow.(chains := escrow.chains[stream := c.(blocks := stored)]);
    }

    method WriteBatch(stream: Id, blocks: seq<Block>, events: seq<Event>, lookback: int) returns (error: Option<Error>)
      modifies this`books, this`summary, this`escrow
      ensures var r := E.ApplyChain(old(View()), stream, blocks, events, lookback);
              Did(error, r) && (r.Ok? ==> View() == r.value)
    {
      hide E.ApplyEvent, E.PutBlocks;
      if blocks == [] {
        return Some(EmptyBatch);
      }
      WriteBlocks(stream, blocks);
      ghost var started := View();
      var i := 0;
      while i < |events|
        invariant 0 <= i <= |events|
        invariant E.ApplyEvents(started, events[..i]) == Ok(View())
      {
        EventPrefixes(started, events, i);
        error := ApplyEvent(events[i]);
        if error.Some? {
          return;
        }
        i := i + 1;
      }
      assert events[..i] == events;
      var last := blocks[|blocks| - 1];
      var c := E.ChainOf(View(), stream);
      var kept := map n | n in c.blocks && n >= last.number - lookback :: c.blocks[n];
      escrow := escrow.(chains := escrow.chains[stream := Chain(kept, Some(Checkpoint(last.number + 1, last.hash)))]);
      return None;
    }

    method ApplyChain(stream: Id, blocks: seq<Block>, events: seq<Event>, lookback: int) returns (error: Option<Error>)
      modifies this
      ensures var r := E.ApplyChain(old(View()), stream, blocks, events, lookback);
              Did(error, r) && View() == if r.Ok? then r.value else old(View())
    {
      hide E.ApplyChain;
      var saved := View();
      error := WriteBatch(stream, blocks, events, lookback);
      if error.Some? {
        Restore(saved);
      }
    }

    method ReverseSettlement(id: LogId) returns (error: Option<Error>)
      requires id in escrow.settlements
      modifies this`books, this`summary, this`escrow
      ensures var r := E.ReverseSettlement(old(View()), id);
              Did(error, r) && (r.Ok? ==> View() == r.value)
    {
      hide B.Transfer, E.UpdateSettlementMetrics;
      var row := escrow.settlements[id];
      error := Transfer(RowKey(SettlementRows, true, id, row.generation, Deposit),
                        TreasurySettledSpend, row.data.sender, EscrowDeposit, row.data.sender, Eth, row.data.depositPaid);
      if error.Some? {
        return;
      }
      error := Transfer(RowKey(SettlementRows, true, id, row.generation, Reserve),
                        TreasurySettledSpend, row.data.sender, EscrowReserve, row.data.sender, Eth, row.data.reservePaid);
      if error.Some? {
        return;
      }
      error := UpdateSettlementMetrics(Some(true), false, S.Tag(row.matching), row.data.face, row.data.paid);
      if error.Some? {
        return;
      }
      escrow := escrow.(settlements := escrow.settlements[id := row.(settled := false)]);
    }

    method ReverseEvent(id: LogId) returns (error: Option<Error>)
      requires id in escrow.events
      modifies this`books, this`summary, this`escrow
      ensures var r := E.ReverseEvent(old(View()), id);
              Did(error, r) && (r.Ok? ==> View() == r.value)
    {
      hide B.Transfer;
      var row := escrow.events[id];
      var d := row.data;
      match d.kind {
        case DepositFunded =>
          error := Transfer(RowKey(EventRows, true, id, row.generation, Only), EscrowDeposit, d.sender, TreasuryCash, d.sender, Eth, d.amount);
        case ReserveFunded =>
          error := Transfer(RowKey(EventRows, true, id, row.generation, Only), EscrowReserve, d.sender, TreasuryCash, d.sender, Eth, d.amount);
        case Withdrawal =>
          error := Transfer(RowKey(EventRows, true, id, row.generation, Deposit), TreasuryCash, d.sender, EscrowDeposit, d.sender, Eth, d.depositAmount);
          if error.Some? {
            return;
          }
          error := Transfer(RowKey(EventRows, true, id, row.generation, Reserve), TreasuryCash, d.sender, EscrowReserve, d.sender, Eth, d.reserveAmount);
        case _ =>
          error := None;
      }
      if error.Some? {
        return;
      }
      escrow := escrow.(events := escrow.events[id := row.(canonical := false)]);
    }

    method ReverseRows(settled: seq<LogId>, canonical: seq<LogId>) returns (error: Option<Error>)
      modifies this`books, this`summary, this`escrow
      ensures var r := E.ReverseRows(old(View()), settled, canonical);
              Did(error, r) && (r.Ok? ==> View() == r.value)
    {
      hide E.ReverseSettlement, E.ReverseEvent;
      ghost var db0 := View();
      var i := 0;
      while i < |settled|
        invariant 0 <= i <= |settled|
        invariant E.ReverseSettlements(db0, settled[..i]) == Ok(View())
      {
        SettledPrefixes(db0, settled, i);
        if settled[i] !in escrow.settlements {
          return Some(NoRows);
        }
        error := ReverseSettlement(settled[i]);
        if error.Some? {
          return;
        }
        i := i + 1;
      }
      assert settled[..i] == settled;
      ghost var db1 := View();
      i := 0;
      while i < |canonical|
        invariant 0 <= i <= |canonical|
        invariant E.ReverseEvents(db1, canonical[..i]) == Ok(View())
      {
        CanonicalPrefixes(db1, canonical, i);
        if canonical[i] !in escrow.events {
          return Some(NoRows);
        }
        error := ReverseEvent(canonical[i]);
        if error.Some? {
          return;
        }
        i := i + 1;
      }
      assert canonical[..i] == canonical;
      return None;
    }

    /** Rewind, over the rows its two queries list. */
    method Rewind(stream: Id, ancestor: Block, settled: seq<LogId>, canonical: seq<LogId>) returns (error: Option<Error>)
      modifies this
      ensures var r := E.Rewind(old(View()), stream, ancestor, settled, canonical);
              Did(error, r) && View() == if r.Ok? then r.value else old(View())
    {
      hide E.ReverseRows;
      var saved := View();
      if !E.HasSnapshot(saved, stream) {
        return Some(NoRows);
      }
      if E.BeforeAnchors(saved, stream, ancestor.number) {
        return Some(SnapshotReorg);
      }
      error := ReverseRows(settled, canonical);
      if error.Some? {
        Restore(saved);
        return;
      }
      var c := E.ChainOf(View(), stream);
      var kept := map n | n in c.blocks && n <= ancestor.number :: c.blocks[n];
      escrow := escrow.(chains := escrow.chains[stream := Chain(kept, Some(Checkpoint(ancestor.number + 1, ancestor.hash)))]);
    }

    // ---- internal/store/manage.go ----

    method CreateGrant(id: Id, amount: nat, currency: Option<Currency>, status: Option<GrantStatus>, window: M.Window) returns (error: Option<Error>)
      modifies this
      ensures var r := M.CreateGrant(old(View()), id, amount, currency, status, window);
              Did(error, r) && View() == if r.Ok? then r.value else old(View())
    {
      hide B.Transfer, M.ChangeInventory;
      if !M.ValidWindow(window) {
        return Some(InvalidInput);
      }
      var saved := View();
      var cur := if currency.None? then Usd else currency.value;
      var initial := if status.None? then Draft else status.value;
      if initial == Closed {
        return Some(InvalidInput);
      }
      if id in budget.grants {
        return Some(UniqueViolation);
      }
      budget := budget.(grants := budget.grants[id := Grant(amount, cur, initial, window.starts, window.ends)]);
      error := ChangeInventory(None, Grants(cur, initial));
      if error.None? {
        error := Transfer(CreateKey(id), GrantFundingSource, id, GrantUnallocated, id, cur, amount);
      }
      if error.Some? {
        Restore(saved);
      }
    }

    method InsertAllocation(id: Id, grant: Id, requested: M.Requested, currency: Option<Currency>,
                            status: Option<AllocationStatus>, window: M.Window) returns (error: Option<Error>)
      modifies this`budget, this`books, this`summary
      ensures var r := M.CreateAllocation(old(View()), id, grant, requested, currency, status, window);
              Did(error, r) && (r.Ok? ==> View() == r.value)
    {
      hide B.Transfer, M.ChangeInventory, B.Held;
      if !M.ValidWindow(window) {
        return Some(InvalidInput);
      }
      if grant !in budget.grants {
        return Some(NoRows);
      }
      var g := budget.grants[grant];
      if currency.Some? && currency.value != g.currency {
        return Some(InvalidInput);
      }
      if g.status == Closed {
        return Some(StateConflict);
      }
      var available := B.Balance(View(), GrantUnallocated, grant, g.currency);
      var n := M.AllocationAmount(requested, available);
      if available < n {
        return Some(StateConflict);
      }
      var initial := if status.None? then Active else status.value;
      if initial != Active && initial != Paused {
        return Some(InvalidInput);
      }
      if initial == Active && n == 0 {
        initial := Exhausted;
      }
      if id in budget.allocations {
        return Some(UniqueViolation);
      }
      budget := budget.(allocations := budget.allocations[id := Allocation(grant, n, g.currency, initial, window.starts, window.ends)]);
      error := ChangeInventory(None, Allocations(g.currency, initial));
      if error.Some? {
        return;
      }
      error := Transfer(CreateKey(id), GrantUnallocated, grant, AllocationAvailable, id, g.currency, n);
    }

    method FundGrant(id: Id, requested: M.Requested, currency: Option<Currency>, funding: Id) returns (error: Option<Error>)
      modifies this`budget, this`books, this`summary
      ensures var r := M.FundGrant(old(View()), id, requested, currency, funding);
              Did(error, r) && (r.Ok? ==> View() == r.value)
    {
      hide B.Transfer;
      if requested.All? || requested.units == 0 {
        return Some(InvalidInput);
      }
      if id !in budget.grants {
        return Some(NoRows);
      }
      var g := budget.grants[id];
      if currency.Some? && currency.value != g.currency {
        return Some(InvalidInput);
      }
      if g.status == Closed {
        return Some(StateConflict);
      }
      budget := budget.(grants := budget.grants[id := g.(total := g.total + requested.units)]);
      error := Transfer(FundKey(funding), GrantFundingSource, id, GrantUnallocated, id, g.currency, requested.units);
    }

    method FundAllocation(id: Id, requested: M.Requested, currency: Option<Currency>, funding: Id) returns (error: Option<Error>)
      modifies this`budget, this`books, this`summary
      ensures var r := M.FundAllocation(old(View()), id, requested, currency, funding);
              Did(error, r) && (r.Ok? ==> View() == r.value)
    {
      hide B.Transfer, M.ChangeInventory, B.Held;
      if id !in budget.allocations {
        return Some(NoRows);
      }
      var a := budget.allocations[id];
      if currency.Some? && currency.value != a.currency {
        return Some(InvalidInput);
      }
      if a.status == Revoked {
        return Some(StateConflict);
      }
      if a.grant !in budget.grants {
        return Some(NoRows);
      }
      if budget.grants[a.grant].status == Closed {
        return Some(StateConflict);
      }
      var available := B.Balance(View(), GrantUnallocated, a.grant, a.currency);
      var n := M.AllocationAmount(requested, available);
      if n == 0 {
        return Some(InvalidInput);
      }
      if available < n {
        return Some(StateConflict);
      }
      error := Transfer(FundKey(funding), GrantUnallocated, a.grant, AllocationAvailable, id, a.currency, n);
      if error.Some? {
        return;
      }
      var status := a.status;
      if status == Exhausted && B.Balance(View(), AllocationAvailable, id, a.currency) > 0 {
        status := Active;
      }
      error := ChangeInventory(Some(Allocations(a.currency, a.status)), Allocations(a.currency, status));
      if error.Some? {
        return;
      }
      budget := budget.(allocations := budget.allocations[id := a.(units := a.units + n, status := status)]);
    }

    method SetGrantStatus(id: Id, status: GrantStatus) returns (error: Option<Error>)
      modifies this
      ensures var r := M.SetGrantStatus(old(View()), id, status);
              Did(error, r) && View() == if r.Ok? then r.value else old(View())
    {
      hide M.ChangeInventory;
      var saved := View();
      if id !in budget.grants {
        return Some(NoRows);
      }
      var g := budget.grants[id];
      if g.status == Closed && status != Closed {
        return Some(StateConflict);
      }
      error := ChangeInventory(Some(Grants(g.currency, g.status)), Grants(g.currency, status));
      if error.Some? {
        Restore(saved);
        return;
      }
      budget := budget.(grants := budget.grants[id := g.(status := status)]);
    }

    method SetAllocationStatus(id: Id, status: AllocationStatus) returns (error: Option<Error>)
      modifies this
      ensures var r := M.SetAllocationStatus(old(View()), id, status);
              Did(error, r) && View() == if r.Ok? then r.value else old(View())
    {
      hide B.Transfer, M.ChangeInventory, B.Held;
      var saved := View();
      if status == Exhausted {
        return Some(InvalidInput);
      }
      if id !in budget.allocations {
        return Some(NoRows);
      }
      var a := budget.allocations[id];
      if a.status == Revoked {
        return if status == Revoked then None else Some(StateConflict);
      }
      var bal := B.Balance(View(), AllocationAvailable, id, a.currency);
      if status == Active && bal <= 0 {
        return Some(StateConflict);
      }
      var returned := if status == Revoked && bal > 0 then bal else 0;
      error := Transfer(RevokeKey(id), AllocationAvailable, id, GrantUnallocated, a.grant, a.currency, returned);
      if error.None? {
        error := ChangeInventory(Some(Allocations(a.currency, a.status)), Allocations(a.currency, status));
      }
      if error.Some? {
        Restore(saved);
        return;
      }
      budget := budget.(allocations := budget.allocations[id := a.(units := a.units - returned, status := status)]);
    }

    method InsertKey(id: Id, allocation: Id, secretHash: Id) returns (error: Option<Error>)
      modifies this`budget
      ensures var r := M.IssueKey(old(View()), id, allocation, secretHash);
              Did(error, r) && (r.Ok? ==> View() == r.value)
    {
      if allocation !in budget.allocations {
        return Some(NoRows);
      }
      if budget.allocations[allocation].status == Revoked {
        return Some(StateConflict);
      }
      if id in budget.apiKeys {
        return Some(UniqueViolation);
      }
      budget := budget.(apiKeys := budget.apiKeys[id := ApiKey(allocation, secretHash, false)]);
      return None;
    }

    // ---- internal/store/idempotency.go ----

    method Mutate(m: I.Mutation) returns (error: Option<Error>)
      modifies this`budget, this`books, this`summary
      ensures var r := I.Mutate(old(View()), m);
              Did(error, r) && (r.Ok? ==> View() == r.value)
    {
      hide M.CreateAllocation, M.FundGrant, M.FundAllocation, M.IssueKey;
      match m {
        case AddAllocation(id, grant, requested, currency, status, window) =>
          error := InsertAllocation(id, grant, requested, currency, status, window);
        case FundGrantBy(grant, requested, currency, funding) =>
          error := FundGrant(grant, requested, currency, funding);
        case FundAllocationBy(allocation, requested, currency, funding) =>
          error := FundAllocation(allocation, requested, currency, funding);
        case AddKey(id, allocation, secretHash) =>
          error := InsertKey(id, allocation, secretHash);
        case AddKeyForGrant(allocation, id, grant, requested, currency, secretHash) =>
          error := InsertAllocation(allocation, grant, requested, currency, None, M.Window(None, None));
          if error.None? {
            error := InsertKey(id, allocation, secretHash);
          }
      }
    }

    /** Lookup, mutation and response storage in one write. */
    method WriteIdempotent(key: string, fingerprint: Id, m: I.Mutation) returns (error: Option<Error>, response: seq<Id>)
      modifies this
      ensures var r := I.WriteIdempotent(old(View()), key, fingerprint, m);
              Did(error, r) && (if r.Ok? then (View(), response) == r.value else View() == old(View()))
    {
      hide I.Mutate, I.ValidKey, I.GrantOf, M.ValidWindow;
      var saved := View();
      response := [];
      if m.AddAllocation? && !M.ValidWindow(m.window) {
        return Some(InvalidInput), [];
      }
      var grant: Option<Id> := None;
      if key != "" {
        if !I.ValidKey(key) {
          return Some(InvalidInput), [];
        }
        grant := I.GrantOf(budget, I.ScopeOf(m));
        if grant.None? {
          return Some(NoRows), [];
        }
        if (grant.value, key) in budget.replies {
          var stored := budget.replies[(grant.value, key)];
          if stored.fingerprint != fingerprint {
            return Some(FingerprintConflict), [];
          }
          return None, stored.response;
        }
      }
      error := Mutate(m);
      if error.Some? {
        Restore(saved);
        return;
      }
      response := I.ResponseTo(m);
      if key != "" {
        budget := budget.(replies := budget.replies[(grant.value, key) := Reply(fingerprint, response)]);
      }
    }

    // ---- internal/store/auth.go ----

    /** The write phase of Authorize: everything is decided again before a session is created. */
    method CommitAuthorization(request: Z.Request, clock: Z.Clock, id: Id) returns (error: Option<Error>, decision: Z.Decision)
      modifies this`budget
      ensures var r := Z.Commit(old(View()), request, clock, id);
              Did(error, r) && (if r.Ok? then (View(), decision) == r.value else View() == old(View()))
    {
      hide B.Held, KafkaLag.Reason, Z.SessionFor;
      decision := Z.Decide(View(), request, clock);
      if decision.Failed? {
        return Some(InvalidInput), decision;
      }
      if decision != Z.Allow(None) {
        return None, decision;
      }
      if id in budget.sessions || exists s :: s in budget.sessions && budget.sessions[s].stateId == request.stateId {
        return Some(UniqueViolation), decision;
      }
      var key := request.credential.keyId;
      var session := Session(budget.apiKeys[key].allocation, key, request.stateId, request.app, request.paymentType,
                             G.Address(request.orchestrator).value, true);
      budget := budget.(sessions := budget.sessions[id := session]);
      return None, Z.Allow(Some(id));
    }

    // ---- internal/store/ingest.go ----

    method ChargeUsage(eventId: Id, allocation: Id, n: int) returns (error: Option<Error>)
      requires allocation in budget.allocations
      modifies this`budget, this`books, this`summary
      ensures var r := G.Charge(old(View()), eventId, allocation, n);
              Did(error, r) && (r.Ok? ==> View() == r.value)
    {
      hide B.Transfer, M.ChangeInventory, B.Held;
      var a := budget.allocations[allocation];
      error := Transfer(UsageKey(eventId), AllocationAvailable, allocation, AllocationSpent, allocation, a.currency, n);
      if error.Some? {
        return;
      }
      if B.Balance(View(), AllocationAvailable, allocation, a.currency) <= 0 && a.status == Active {
        budget := budget.(allocations := budget.allocations[allocation := a.(status := Exhausted)]);
        error := ChangeInventory(Some(Allocations(a.currency, Active)), Allocations(a.currency, Exhausted));
      }
    }

    method ApplyRow(pos: Position, row: UsageRow) returns (error: Option<Error>)
      requires row.raw.TicketEvent?
      modifies this
      ensures var r := G.ApplyRow(old(View()), pos, row);
              Did(error, r) && (r.Ok? ==> View() == r.value)
    {
      hide G.Charge, A.Rematch, G.Lower, G.Fee;
      var t := row.raw.ticket;
      if t.authId !in budget.sessions || budget.sessions[t.authId].allocation !in budget.allocations {
        return Some(NoRows);
      }
      var allocation := budget.sessions[t.authId].allocation;
      var auth := Authorization(t.authId, G.Lower(t.pm), G.Lower(t.orchestrator));
      usage := usage.(authorizations := usage.authorizations[pos := auth]);
      error := ChargeUsage(row.raw.id, allocation, G.Fee(row, budget.allocations[allocation].currency));
      if error.Some? {
        return;
      }
      error := Rematch(auth.pm, auth.orchestrator);
    }

    /** One Kafka record: audit row, counts, charge, attribution and offset, or nothing. */
    method Ingest(pos: Position, raw: Payload) returns (error: Option<Error>)
      modifies this
      ensures var r := G.Ingest(old(View()), pos, raw);
              Did(error, r) && View() == if r.Ok? then r.value else old(View())
    {
      hide G.ApplyRow, G.RowFor, G.NextOf, B.ChangeCount;
      if !G.ValidPosition(pos) {
        return Some(InvalidPosition);
      }
      var next := G.NextOf(usage, pos.partition);
      if pos.offset < next {
        return None;
      }
      if pos.offset > next {
        return Some(OffsetGap);
      }
      if pos in usage.rows {
        return Some(UniqueViolation);
      }
      var saved := View();
      var row := G.RowFor(saved, raw);
      AppliedRaw(saved, raw);
      usage := usage.(rows := usage.rows[pos := row]);
      error := None;
      if row.status == Quarantined {
        error := ChangeMetricCount(Quarantines(row.reason), 1);
      }
      if error.None? && row.status == Applied {
        error := ApplyRow(pos, row);
      }
      if error.Some? {
        Restore(saved);
        return;
      }
      usage := usage.(next := usage.next[pos.partition := pos.offset + 1]);
    }
  }

  lemma AppliedRaw(db: DB, raw: Payload)
    ensures G.RowFor(db, raw).status == Applied ==> G.RowFor(db, raw).raw.TicketEvent?
  {
  }

  // ---- The loops follow the recursive specifications ----

  lemma OpenPrefixes(db: DB, stream: Id, anchor: Block, snapshots: seq<E.Opening>, i: nat)
    requires i < |snapshots|
    ensures E.OpenAll(db, stream, anchor, snapshots[..i]).Err? ==> E.OpenAll(db, stream, anchor, snapshots[..i + 1]).Err?
    ensures E.OpenAll(db, stream, anchor, snapshots[..i]).Ok? ==>
              E.OpenAll(db, stream, anchor, snapshots[..i + 1]) == E.Open(E.OpenAll(db, stream, anchor, snapshots[..i]).value, stream, anchor, snapshots[i])
    ensures E.OpenAll(db, stream, anchor, snapshots[..i + 1]).Err? ==>
              E.OpenAll(db, stream, anchor, snapshots).Err? &&
              E.OpenAll(db, stream, anchor, snapshots).error == E.OpenAll(db, stream, anchor, snapshots[..i + 1]).error
    decreases |snapshots|
  {
    hide E.Open;
    assert snapshots[..i + 1][..i] == snapshots[..i];
    if i + 1 == |snapshots| {
      assert snapshots[..i + 1] == snapshots;
    } else {
      var front := snapshots[..|snapshots| - 1];
      OpenPrefixes(db, stream, anchor, front, i);
      assert front[..i + 1] == snapshots[..i + 1] && front[..i] == snapshots[..i];
    }
  }

  lemma EventPrefixes(db: DB, events: seq<Event>, i: nat)
    requires i < |events|
    ensures E.ApplyEvents(db, events[..i]).Ok? ==> E.ApplyEvents(db, events[..i + 1]) == E.ApplyEvent(E.ApplyEvents(db, events[..i]).value, events[i])
    ensures E.ApplyEvents(db, events[..i + 1]).Err? ==>
              E.ApplyEvents(db, events).Err? && E.ApplyEvents(db, events).error == E.ApplyEvents(db, events[..i + 1]).error
    decreases |events|
  {
    hide E.ApplyEvent;
    assert events[..i + 1][..i] == events[..i];
    if i + 1 == |events| {
      assert events[..i + 1] == events;
    } else {
      var front := events[..|events| - 1];
      EventPrefixes(db, front, i);
      assert front[..i + 1] == events[..i + 1] && front[..i] == events[..i];
    }
  }

  lemma SettledPrefixes(db: DB, ids: seq<LogId>, i: nat)
    requires i < |ids|
    ensures E.ReverseSettlements(db, ids[..i]).Ok? ==>
              var before := E.ReverseSettlements(db, ids[..i]).value;
              E.ReverseSettlements(db, ids[..i + 1]) == if ids[i] in before.escrow.settlements then E.ReverseSettlement(before, ids[i]) else Err(NoRows)
    ensures E.ReverseSettlements(db, ids[..i + 1]).Err? ==>
              E.ReverseSettlements(db, ids).Err? && E.ReverseSettlements(db, ids).error == E.ReverseSettlements(db, ids[..i + 1]).error
    decreases |ids|
  {
    hide E.ReverseSettlement;
    assert ids[..i + 1][..i] == ids[..i];
    if i + 1 == |ids| {
      assert ids[..i + 1] == ids;
    } else {
      var front := ids[..|ids| - 1];
      SettledPrefixes(db, front, i);
      assert front[..i + 1] == ids[..i + 1] && front[..i] == ids[..i];
    }
  }

  lemma CanonicalPrefixes(db: DB, ids: seq<LogId>, i: nat)
    requires i < |ids|
    ensures E.ReverseEvents(db, ids[..i]).Ok? ==>
              var before := E.ReverseEvents(db, ids[..i]).value;
              E.ReverseEvents(db, ids[..i + 1]) == if ids[i] in before.escrow.events then E.ReverseEvent(before, ids[i]) else Err(NoRows)
    ensures E.ReverseEvents(db, ids[..i + 1]).Err? ==>
              E.ReverseEvents(db, ids).Err? && E.ReverseEvents(db, ids).error == E.ReverseEvents(db, ids[..i + 1]).error
    decreases |ids|
  {
    hide E.ReverseEvent;
    assert ids[..i + 1][..i] == ids[..i];
    if i + 1 == |ids| {
      assert ids[..i + 1] == ids;
    } else {
      var front := ids[..|ids| - 1];
      CanonicalPrefixes(db, front, i);
      assert front[..i + 1] == ids[..i + 1] && front[..i] == ids[..i];
    }
  }
}

/**
 * Redemption grammar (correlateRedemptions in internal/chain/listener.go:684-748): a
 * redemption takes its payment from an optional reserve claim and ticket transfer that
 * precede it immediately.
 */
module Redemptions {
  import opened Results
  import opened Blocks
  import opened EscrowSteps

  datatype GrammarError =
    | OutOfOrderClaim | TransferMismatch | NoSettlement | MissingTransfer | RedemptionMismatch | InvalidPayment | NotContiguous | Incomplete

  type Correlation = Result<seq<Event>, GrammarError>

  predicate SamePayment(left: Event, right: Event) {
    left.log.txHash == right.log.txHash && left.sender == right.sender && left.recipient == right.recipient
  }

  /** A redemption with its payment filled in. */
  function Paid(e: Event, paid: nat, reservePaid: nat): Event
    requires e.settlement.Some? && reservePaid <= paid
  {
    var s := e.settlement.value;
    e.(depositAmount := paid - reservePaid, reserveAmount := reservePaid,
       settlement := Some(s.(paid := paid, depositPaid := paid - reservePaid, reservePaid := reservePaid)))
  }

  function AmountOf(e: Option<Event>): nat {
    if e.Some? then e.value.amount else 0
  }

  /** What is wrong with one event after the pending claim and transfer. */
  function Fault(e: Event, claim: Option<Event>, transfer: Option<Event>): Option<GrammarError> {
    match e.kind
    case ReserveClaimed => if claim.Some? || transfer.Some? then Some(OutOfOrderClaim) else None
    case WinningTicketTransfer =>
      if transfer.Some? || (claim.Some? && !SamePayment(claim.value, e)) then Some(TransferMismatch) else None
    case WinningTicketRedeemed =>
      if e.settlement.None? then Some(NoSettlement)
      else if claim.Some? && transfer.None? then Some(MissingTransfer)
      else if transfer.Some? && (!SamePayment(transfer.value, e) || (claim.Some? && !SamePayment(claim.value, e))) then Some(RedemptionMismatch)
      else if AmountOf(claim) > AmountOf(transfer) || AmountOf(transfer) > e.settlement.value.face then Some(InvalidPayment)
      else None
    case _ => if claim.Some? || transfer.Some? then Some(NotContiguous) else None
  }

  function NextClaim(e: Event, claim: Option<Event>): Option<Event> {
    match e.kind
    case ReserveClaimed => Some(e)
    case WinningTicketRedeemed => None
    case _ => claim
  }

  function NextTransfer(e: Event, transfer: Option<Event>): Option<Event> {
    match e.kind
    case WinningTicketTransfer => Some(e)
    case WinningTicketRedeemed => None
    case _ => transfer
  }

  function Rewritten(e: Event, claim: Option<Event>, transfer: Option<Event>): Event
    requires Fault(e, claim, transfer).None?
  {
    if e.kind == WinningTicketRedeemed then Paid(e, AmountOf(transfer), AmountOf(claim)) else e
  }

  function Scan(events: seq<Event>, claim: Option<Event>, transfer: Option<Event>): Correlation {
    if events == [] then
      if claim.Some? || transfer.Some? then Err(Incomplete) else Ok([])
    else
      var e := events[0];
      if Fault(e, claim, transfer).Some? then Err(Fault(e, claim, transfer).value) else
        var rest :- Scan(events[1..], NextClaim(e, claim), NextTransfer(e, transfer));
        Ok([Rewritten(e, claim, transfer)] + rest)
  }

  function Correlate(events: seq<Event>): Correlation {
    Scan(events, None, None)
  }

  /** correlateRedemptions rewrites the redemptions of its argument in place. */
  method CorrelateRedemptions(events: array<Event>) returns (error: Option<GrammarError>)
    modifies events
    ensures error == match Correlate(old(events[..])) { case Ok(_) => None case Err(e) => Some(e) }
    ensures error.None? ==> events[..] == Correlate(old(events[..])).value
  {
    ghost var input := events[..];
    var claim: Option<Event>, transfer: Option<Event> := None, None;
    var i := 0;
    assert input[0..] == input && events[..0] == [];
    assert forall rest: seq<Event> :: [] + rest == rest;
    while i < events.Length
      invariant 0 <= i <= events.Length
      invariant events[i..] == input[i..]
      invariant Correlate(input) == match Scan(input[i..], claim, transfer) {
                                      case Ok(rest) => Ok(events[..i] + rest)
                                      case Err(e) => Err(e) }
    {
      var e := events[i];
      assert input[i..][0] == events[i..][0] == e;
      assert input[i..][1..] == input[i + 1..];
      ghost var done := events[..i];
      var fault := Fault(e, claim, transfer);
      if fault.Some? {
        return fault;
      }
      if e.kind == WinningTicketRedeemed {
        events[i] := Paid(e, AmountOf(transfer), AmountOf(claim));
      }
      assert events[..i + 1] == done + [Rewritten(e, claim, transfer)];
      claim, transfer := NextClaim(e, claim), NextTransfer(e, transfer);
      i := i + 1;
      assert forall rest: seq<Event> :: done + ([events[i - 1]] + rest) == events[..i] + rest;
    }
    assert events[..events.Length] + [] == events[..];
    if claim.Some? || transfer.Some? {
      return Some(Incomplete);
    }
    return None;
  }

  // ---- The grammar ----

  predicate Plain(e: Event) {
    e.kind != ReserveClaimed && e.kind != WinningTicketTransfer && e.kind != WinningTicketRedeemed
  }

  /** [claim] [transfer] redeemed, of one payment, with reserve <= paid <= face. */
  predicate Group(g: seq<Event>) {
    && 1 <= |g| <= 3
    && g[|g| - 1].kind == WinningTicketRedeemed && g[|g| - 1].settlement.Some?
    && (|g| >= 2 ==> g[|g| - 2].kind == WinningTicketTransfer && SamePayment(g[|g| - 2], g[|g| - 1]) &&
                     g[|g| - 2].amount <= g[|g| - 1].settlement.value.face)
    && (|g| == 3 ==> g[0].kind == ReserveClaimed && SamePayment(g[0], g[1]) && g[0].amount <= g[1].amount)
  }

  ghost predicate Grammar(events: seq<Event>)
    decreases |events|
  {
    || events == []
    || (Plain(events[0]) && Grammar(events[1..]))
    || exists n :: 1 <= n <= 3 && n <= |events| && Group(events[..n]) && Grammar(events[n..])
  }

  /** The redemption of a group, paid as its transfer and claim say. */
  function PaidGroup(g: seq<Event>): seq<Event>
    requires Group(g)
  {
    g[..|g| - 1] + [Paid(g[|g| - 1], if |g| >= 2 then g[|g| - 2].amount else 0, if |g| == 3 then g[0].amount else 0)]
  }

  lemma ScanOne(events: seq<Event>, claim: Option<Event>, transfer: Option<Event>)
    requires events != [] && Fault(events[0], claim, transfer).None?
    ensures Scan(events, claim, transfer) ==
            match Scan(events[1..], NextClaim(events[0], claim), NextTransfer(events[0], transfer))
            case Ok(rest) => Ok([Rewritten(events[0], claim, transfer)] + rest)
            case Err(e) => Err(e)
  {
  }

  /** A group is scanned as a whole. */
  lemma ScanGroup(events: seq<Event>, n: nat)
    requires 1 <= n <= 3 && n <= |events| && Group(events[..n])
    ensures Correlate(events) ==
            match Correlate(events[n..])
            case Ok(rest) => Ok(PaidGroup(events[..n]) + rest)
            case Err(e) => Err(e)
  {
    var g := events[..n];
    assert forall i :: 0 <= i < n ==> g[i] == events[i];
    var rest := Correlate(events[n..]);
    if n == 1 {
      ScanOne(events, None, None);
      assert PaidGroup(g) == [Rewritten(events[0], None, None)];
    } else if n == 2 {
      var t := Some(events[0]);
      ScanOne(events, None, None);
      ScanOne(events[1..], None, t);
      assert events[1..][1..] == events[2..];
      assert PaidGroup(g) == [events[0], Rewritten(events[1], None, t)];
      if rest.Ok? { assert [events[0]] + ([Rewritten(events[1], None, t)] + rest.value) == PaidGroup(g) + rest.value; }
    } else {
      var c, t := Some(events[0]), Some(events[1]);
      ScanOne(events, None, None);
      ScanOne(events[1..], c, None);
      assert events[1..][1..] == events[2..];
      ScanOne(events[2..], c, t);
      assert events[2..][1..] == events[3..];
      assert PaidGroup(g) == [events[0], events[1], Rewritten(events[2], c, t)];
      if rest.Ok? { assert [events[0]] + ([events[1]] + ([Rewritten(events[2], c, t)] + rest.value)) == PaidGroup(g) + rest.value; }
    }
  }

  lemma ScanHead(events: seq<Event>, claim: Option<Event>, transfer: Option<Event>)
    requires Scan(events, claim, transfer).Ok? && (events != [] || claim.Some? || transfer.Some?)
    ensures events != [] && Fault(events[0], claim, transfer).None?
    ensures Scan(events[1..], NextClaim(events[0], claim), NextTransfer(events[0], transfer)).Ok?
  {
  }

  /** A scan that succeeds from a clean state starts with a plain event or a group. */
  lemma ScanParses(events: seq<Event>)
    requires events != [] && Correlate(events).Ok?
    ensures (Plain(events[0]) && Correlate(events[1..]).Ok?) ||
            (|events| >= 1 && Group(events[..1]) && Correlate(events[1..]).Ok?) ||
            (|events| >= 2 && Group(events[..2]) && Correlate(events[2..]).Ok?) ||
            (|events| >= 3 && Group(events[..3]) && Correlate(events[3..]).Ok?)
  {
    var e := events[0];
    ScanHead(events, None, None);
    if e.kind == WinningTicketTransfer {
      ScanHead(events[1..], None, Some(e));
      assert events[1..][1..] == events[2..];
    } else if e.kind == ReserveClaimed {
      ScanHead(events[1..], Some(e), None);
      assert events[1..][1..] == events[2..];
      ScanHead(events[2..], Some(e), Some(events[1]));
      assert events[2..][1..] == events[3..];
    }
  }

  /** correlateRedemptions succeeds exactly on concatenations of plain events and payment groups. */
  lemma {:induction false} CorrelateIffGrammar(events: seq<Event>)
    ensures Correlate(events).Ok? <==> Grammar(events)
    decreases |events|
  {
    if events != [] {
      forall n | 1 <= n <= 3 && n <= |events| ensures Correlate(events[n..]).Ok? <==> Grammar(events[n..]) {
        CorrelateIffGrammar(events[n..]);
      }
      if Plain(events[0]) { ScanOne(events, None, None); }
      forall n | 1 <= n <= 3 && n <= |events| && Group(events[..n])
        ensures Correlate(events).Ok? <==> Correlate(events[n..]).Ok?
      {
        ScanGroup(events, n);
      }
      if Correlate(events).Ok? {
        ScanParses(events);
      }
    }
  }

  // ---- What comes out ----

  /** Every output is its input, except that redemptions carry a valid payment split. */
  predicate Corresponds(input: Event, output: Event) {
    if input.kind == WinningTicketRedeemed then
      output.settlement.Some? && input.settlement.Some? && SplitOk(output.settlement.value) &&
      output.depositAmount == output.settlement.value.depositPaid && output.reserveAmount == output.settlement.value.reservePaid &&
      output == Paid(input, output.settlement.value.paid, output.settlement.value.reservePaid)
    else output == input
  }

  lemma {:induction false} ScanOutputs(events: seq<Event>, claim: Option<Event>, transfer: Option<Event>)
    requires Scan(events, claim, transfer).Ok?
    ensures var out := Scan(events, claim, transfer).value;
            |out| == |events| && forall i :: 0 <= i < |events| ==> Corresponds(events[i], out[i])
  {
    if events != [] {
      ScanOutputs(events[1..], NextClaim(events[0], claim), NextTransfer(events[0], transfer));
      var out := Scan(events, claim, transfer).value;
      forall i | 0 <= i < |events| ensures Corresponds(events[i], out[i]) {
        if i > 0 { assert events[i] == events[1..][i - 1] && out[i] == out[1..][i - 1]; }
      }
    }
  }

  /** Every redemption put out passes the split check of applySettlement. */
  lemma RedemptionsSplit(events: seq<Event>)
    requires Correlate(events).Ok?
    ensures var out := Correlate(events).value;
            forall e :: e in out && e.kind == WinningTicketRedeemed ==> e.settlement.Some? && SplitOk(e.settlement.value)
  {
    ScanOutputs(events, None, None);
    var out := Correlate(events).value;
    forall e | e in out && e.kind == WinningTicketRedeemed ensures e.settlement.Some? && SplitOk(e.settlement.value) {
      var i :| 0 <= i < |out| && out[i] == e;
      assert Corresponds(events[i], out[i]);
    }
  }

  /** Correlating two complete runs of events together or apart gives the same result. */
  lemma {:induction false} CorrelateConcat(a: seq<Event>, b: seq<Event>, claim: Option<Event>, transfer: Option<Event>)
    requires Scan(a, claim, transfer).Ok?
    ensures Scan(a + b, claim, transfer) ==
            match Correlate(b)
            case Ok(rest) => Ok(Scan(a, claim, transfer).value + rest)
            case Err(e) => Err(e)
  {
    if a == [] {
      assert a + b == b;
      assert forall rest: seq<Event> :: [] + rest == rest;
    } else {
      assert (a + b)[1..] == a[1..] + b;
      CorrelateConcat(a[1..], b, NextClaim(a[0], claim), NextTransfer(a[0], transfer));
      assert forall head: seq<Event>, tail: seq<Event>, rest: seq<Event> :: head + (tail + rest) == (head + tail) + rest;
    }
  }
}

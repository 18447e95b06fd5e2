/**
 * Correlation told event by event, from each event's neighbours alone
 * (internal/chain/listener.go:688-748): which sequences are accepted, and what every
 * redemption says in the end.
 */
module Payments {
  import opened Results
  import opened Blocks
  import opened Redemptions

  // ---- Neighbours ----

  predicate TransferBefore(events: seq<Event>, i: nat)
    requires i <= |events|
  {
    i > 0 && events[i - 1].kind == WinningTicketTransfer
  }

  predicate ClaimBefore(events: seq<Event>, i: nat)
    requires i <= |events|
  {
    i > 1 && TransferBefore(events, i) && events[i - 2].kind == ReserveClaimed
  }

  /** What the transfer right before a redemption paid, and the reserve claim before that gave; 0 without them. */
  function PaidBefore(events: seq<Event>, i: nat): nat
    requires i <= |events|
  {
    if TransferBefore(events, i) then events[i - 1].amount else 0
  }

  function ClaimedBefore(events: seq<Event>, i: nat): nat
    requires i <= |events|
  {
    if ClaimBefore(events, i) then events[i - 2].amount else 0
  }

  /** The next event is of this type, in the same transaction, of the same sender and recipient. */
  predicate LeadsTo(events: seq<Event>, i: nat, kind: EventType)
    requires i < |events|
  {
    && i + 1 < |events| && events[i + 1].kind == kind
    && events[i + 1].log.txHash == events[i].log.txHash
    && events[i + 1].sender == events[i].sender && events[i + 1].recipient == events[i].recipient
  }

  /** A claim leads to its transfer, a transfer to its redemption, and a redemption is covered by them. */
  predicate Placed(events: seq<Event>, i: nat)
    requires i < |events|
  {
    match events[i].kind
    case ReserveClaimed => LeadsTo(events, i, WinningTicketTransfer)
    case WinningTicketTransfer => LeadsTo(events, i, WinningTicketRedeemed)
    case WinningTicketRedeemed =>
      events[i].settlement.Some? && ClaimedBefore(events, i) <= PaidBefore(events, i) <= events[i].settlement.value.face
    case _ => true
  }

  // ---- The scan knows exactly its neighbours ----

  predicate Pending(events: seq<Event>, i: nat)
    requires i <= |events|
  {
    i > 0 && (events[i - 1].kind == ReserveClaimed || events[i - 1].kind == WinningTicketTransfer)
  }

  predicate Knows(events: seq<Event>, i: nat, claim: Option<Event>, transfer: Option<Event>)
    requires i <= |events|
  {
    && transfer == (if TransferBefore(events, i) then Some(events[i - 1]) else None)
    && claim == (if ClaimBefore(events, i) then Some(events[i - 2])
                 else if i > 0 && events[i - 1].kind == ReserveClaimed then Some(events[i - 1]) else None)
    && (ClaimBefore(events, i) ==> LeadsTo(events, i - 2, WinningTicketTransfer))
  }

  lemma FaultIsLocal(events: seq<Event>, i: nat, claim: Option<Event>, transfer: Option<Event>)
    requires i < |events| && Knows(events, i, claim, transfer)
    ensures Fault(events[i], claim, transfer).None? <==>
            (Pending(events, i) ==> Placed(events, i - 1)) && (events[i].kind == WinningTicketRedeemed ==> Placed(events, i))
    ensures Fault(events[i], claim, transfer).None? ==> Knows(events, i + 1, NextClaim(events[i], claim), NextTransfer(events[i], transfer))
  {
  }

  lemma {:induction false} ScanIsLocal(events: seq<Event>, i: nat, claim: Option<Event>, transfer: Option<Event>)
    requires i <= |events| && Knows(events, i, claim, transfer)
    ensures Scan(events[i..], claim, transfer).Ok? <==>
            (Pending(events, i) ==> Placed(events, i - 1)) && forall j :: i <= j < |events| ==> Placed(events, j)
    decreases |events| - i
  {
    if i < |events| {
      FaultIsLocal(events, i, claim, transfer);
      hide Fault, Knows, Placed;
      assert events[i..][1..] == events[i + 1..];
      if Fault(events[i], claim, transfer).None? {
        ScanIsLocal(events, i + 1, NextClaim(events[i], claim), NextTransfer(events[i], transfer));
        NotPending(events, i);
      }
    }
  }

  /** What need not wait for its successor is placed as it stands. */
  lemma NotPending(events: seq<Event>, i: nat)
    requires i < |events| && (events[i].kind == WinningTicketRedeemed ==> Placed(events, i))
    ensures Pending(events, i + 1) || Placed(events, i)
  {
  }

  /** Correlation succeeds exactly when every event is placed right among its neighbours. */
  lemma CorrelateIffPlaced(events: seq<Event>)
    ensures Correlate(events).Ok? <==> forall i :: 0 <= i < |events| ==> Placed(events, i)
  {
    hide Placed, Scan;
    assert events[0..] == events;
    ScanIsLocal(events, 0, None, None);
  }

  // ---- What comes out ----

  /**
   * A redemption keeps all it said and is paid what the transfer before it paid: out of
   * the reserve as much as was claimed, out of the deposit the rest. Any other event is
   * left as it was.
   */
  predicate Explained(events: seq<Event>, i: nat, out: Event)
    requires i < |events|
  {
    var e := events[i];
    if e.kind != WinningTicketRedeemed then out == e else
      && e.settlement.Some? && out.settlement.Some?
      && var (s, t) := (e.settlement.value, out.settlement.value);
      && out.kind == e.kind && out.log == e.log && out.block == e.block && out.sender == e.sender && out.recipient == e.recipient && out.amount == e.amount
      && t.log == s.log && t.block == s.block && t.sender == s.sender && t.recipient == s.recipient && t.face == s.face && t.ticket == s.ticket
      && t.paid == PaidBefore(events, i) && t.reservePaid == ClaimedBefore(events, i) && t.depositPaid == t.paid - t.reservePaid
      && out.depositAmount == t.depositPaid && out.reserveAmount == t.reservePaid
      && t.reservePaid <= t.paid <= t.face
  }

  lemma OneExplained(events: seq<Event>, i: nat, claim: Option<Event>, transfer: Option<Event>)
    requires i < |events| && Knows(events, i, claim, transfer) && Fault(events[i], claim, transfer).None?
    ensures Explained(events, i, Rewritten(events[i], claim, transfer))
  {
  }

  lemma {:induction false} ScanExplained(events: seq<Event>, i: nat, claim: Option<Event>, transfer: Option<Event>)
    requires i <= |events| && Knows(events, i, claim, transfer) && Scan(events[i..], claim, transfer).Ok?
    ensures var out := Scan(events[i..], claim, transfer).value;
            |out| == |events| - i && forall k :: 0 <= k < |out| ==> Explained(events, i + k, out[k])
    decreases |events| - i
  {
    if i < |events| {
      assert events[i..][1..] == events[i + 1..];
      FaultIsLocal(events, i, claim, transfer);
      OneExplained(events, i, claim, transfer);
      hide Knows, Placed, Explained, Fault, Rewritten;
      ScanExplained(events, i + 1, NextClaim(events[i], claim), NextTransfer(events[i], transfer));
      var rest := Scan(events[i + 1..], NextClaim(events[i], claim), NextTransfer(events[i], transfer)).value;
      var out := Scan(events[i..], claim, transfer).value;
      assert out == [Rewritten(events[i], claim, transfer)] + rest;
      forall k | 0 <= k < |out| ensures Explained(events, i + k, out[k]) {
        if k > 0 { assert Explained(events, i + 1 + (k - 1), rest[k - 1]); }
      }
    }
  }

  /** Every output is explained by its input and the two events before it. */
  lemma OutputsExplained(events: seq<Event>)
    requires Correlate(events).Ok?
    ensures var out := Correlate(events).value;
            |out| == |events| && forall i :: 0 <= i < |events| ==> Explained(events, i, out[i])
  {
    hide Explained, Scan;
    assert events[0..] == events;
    ScanExplained(events, 0, None, None);
    var out := Correlate(events).value;
    forall i | 0 <= i < |events| ensures Explained(events, i, out[i]) { assert Explained(events, 0 + i, out[i]); }
  }
}

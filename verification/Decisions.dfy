/**
 * What each answer of the signer webhook says (internal/store/auth.go:109-193), condition
 * by condition: the key, its allocation and grant, the money, the session, the lag.
 */
module Decisions {
  import opened Results
  import opened Blocks
  import opened Tables
  import opened Books
  import opened Ingestion
  import opened Authorize
  import KafkaLag

  // ---- Addresses ----

  predicate HexDigit(c: char) {
    '0' <= c <= '9' || 'a' <= c <= 'f' || 'A' <= c <= 'F'
  }

  /** The same character, or the small letter of a capital. */
  predicate Lowers(c: char, d: char) {
    if 'A' <= c <= 'Z' then d as int == c as int + 32 else d == c
  }

  /** 0x and forty hexadecimal digits, with the letters written small. */
  predicate Names(s: string, a: string) {
    && |s| == 42 && |a| == 42 && s[0] == '0' && s[1] == 'x'
    && (forall i :: 2 <= i < 42 ==> HexDigit(s[i]))
    && forall i :: 0 <= i < 42 ==> Lowers(s[i], a[i])
  }

  lemma AddressNames(s: string, a: string)
    ensures Address(s) == Some(a) <==> Names(s, a)
  {
    if |s| == 42 {
      var low := Lower(s[2..]);
      assert |low| == 40;
      assert Hexadecimal(low) <==> forall i :: 2 <= i < 42 ==> HexDigit(s[i]) by {
        forall i | 2 <= i < 42 ensures HexDigit(s[i]) <==> '0' <= low[i - 2] <= '9' || 'a' <= low[i - 2] <= 'f' {
          assert low[i - 2] == LowerChar(s[i]);
        }
        if Hexadecimal(low) {
          forall i | 2 <= i < 42 ensures HexDigit(s[i]) { assert '0' <= low[i - 2] <= '9' || 'a' <= low[i - 2] <= 'f'; }
        }
      }
      if Names(s, a) { assert a == Lower(s); }
    }
  }

  predicate Readable(s: string) {
    |s| == 42 && s[0] == '0' && s[1] == 'x' && forall i :: 2 <= i < 42 ==> HexDigit(s[i])
  }

  lemma ReadableAddress(s: string)
    ensures Address(s).Some? <==> Readable(s)
  {
    if Readable(s) {
      var a := Lower(s);
      assert forall i :: 0 <= i < 42 ==> Lowers(s[i], a[i]);
      AddressNames(s, a);
    }
    if Address(s).Some? { AddressNames(s, Address(s).value); }
  }

  // ---- The conditions ----

  /** The bearer's key exists, has this secret and is not revoked. */
  predicate KeyProven(b: Budget, r: Request) {
    && r.credential.Bearer?
    && var id := r.credential.keyId;
    && id in b.apiKeys && b.apiKeys[id].allocation in b.allocations && b.allocations[b.apiKeys[id].allocation].grant in b.grants
    && b.apiKeys[id].secretHash == r.credential.hash && !b.apiKeys[id].revoked
  }

  predicate Within(now: int, starts: Option<int>, ends: Option<int>) {
    (starts == None || starts.value <= now) && (ends == None || now < ends.value)
  }

  /** The key's allocation and its grant are in use at this time. */
  predicate InUse(b: Budget, r: Request, now: int)
    requires KeyProven(b, r)
  {
    var a := b.allocations[b.apiKeys[r.credential.keyId].allocation];
    var g := b.grants[a.grant];
    g.status == ActiveGrant && a.status in {Active, Exhausted} && Within(now, a.starts, a.ends) && Within(now, g.starts, g.ends)
  }

  /** What the allocation has available. */
  function Purse(db: DB, r: Request): int
    requires KeyProven(db.budget, r)
  {
    var id := db.budget.apiKeys[r.credential.keyId].allocation;
    Held(db.books.balances, Account(AllocationAvailable, id, db.budget.allocations[id].currency))
  }

  predicate Empty(db: DB, r: Request)
    requires KeyProven(db.budget, r)
  {
    db.budget.allocations[db.budget.apiKeys[r.credential.keyId].allocation].status == Exhausted || Purse(db, r) <= 0
  }

  /** The fee stated in the currency of the allocation, if it parsed. */
  predicate Asks(db: DB, r: Request, fee: nat)
    requires KeyProven(db.budget, r)
  {
    match db.budget.allocations[db.budget.apiKeys[r.credential.keyId].allocation].currency
    case Usd => r.feeUsd == Some(fee)
    case Eth => r.feeWei == Some(fee)
  }

  /** The session belongs to the signer state, is active, and was made for this caller. */
  predicate Mine(b: Budget, r: Request, s: Id)
    requires r.credential.Bearer?
  {
    && s in b.sessions && b.sessions[s].stateId == r.stateId && b.sessions[s].active
    && b.sessions[s].apiKey == r.credential.keyId && b.sessions[s].app == r.app && b.sessions[s].paymentType == r.paymentType
    && Names(r.orchestrator, b.sessions[s].orchestrator)
    && (r.authId == "" || r.authId == s)
  }

  predicate NoSession(b: Budget, stateId: Id) {
    forall s :: s in b.sessions ==> b.sessions[s].stateId != stateId
  }

  /** A report exists, says covered, and both its check and what it covers are younger than maxAge, which is at least a second. */
  predicate LagProven(u: Usage, clock: Clock) {
    && clock.topic in u.lag && clock.maxAge >= 1_000_000_000
    && var h := u.lag[clock.topic];
    && h.available && 0 < h.coveredThrough <= h.checkedAt <= clock.now
    && (clock.now - h.checkedAt) * 1_000_000 < clock.maxAge && (clock.now - h.coveredThrough) * 1_000_000 < clock.maxAge
  }

  /** The caller can pay: key, allocation and grant in order, and a parsed fee within the balance. */
  ghost predicate Solvent(db: DB, r: Request, now: int) {
    && KeyProven(db.budget, r) && InUse(db.budget, r, now) && !Empty(db, r)
    && exists fee: nat :: Asks(db, r, fee) && fee <= Purse(db, r)
  }

  // ---- The answers ----

  lemma LagIsProven(u: Usage, clock: Clock)
    ensures KafkaLag.Reason(LagOf(u, clock.topic), clock.now, clock.maxAge).Fresh? <==> LagProven(u, clock)
  {
  }

  lemma PermittedMeans(db: DB, r: Request, clock: Clock)
    ensures Permitted(db, r, clock) <==> Solvent(db, r, clock.now) && Readable(r.orchestrator) && LagProven(db.usage, clock)
  {
    LagIsProven(db.usage, clock);
    ReadableAddress(r.orchestrator);
    hide KafkaLag.Reason, Address, Held, LagOf;
    if Permitted(db, r, clock) {
      var fee := if db.budget.allocations[db.budget.apiKeys[r.credential.keyId].allocation].currency == Usd then r.feeUsd else r.feeWei;
      assert Asks(db, r, fee.value);
    }
  }

  lemma BoundMeans(b: Budget, r: Request)
    requires OneSessionPerState(b) && r.credential.Bearer?
    ensures StateBound(b, r) && SessionFor(b, r.stateId) == None <==> NoSession(b, r.stateId) && r.authId == ""
    ensures forall s :: StateBound(b, r) && SessionFor(b, r.stateId) == Some(s) <==> Mine(b, r, s)
  {
    SessionForMeaning(b, r.stateId);
    hide SessionFor;
    forall s | s in b.sessions ensures Address(r.orchestrator) == Some(b.sessions[s].orchestrator) <==> Names(r.orchestrator, b.sessions[s].orchestrator) {
      AddressNames(r.orchestrator, b.sessions[s].orchestrator);
    }
    hide Address, Names;
  }

  /**
   * A request is allowed, in session s or in none yet, exactly when its key, allocation
   * and grant are in order, the fee is covered, the lag is proven, and s is the active
   * session of its signer state made for this very caller, or the state has none.
   */
  lemma AllowedIff(db: DB, r: Request, clock: Clock, s: Id)
    requires OneSessionPerState(db.budget)
    ensures Decide(db, r, clock) == Allow(Some(s)) <==>
            Solvent(db, r, clock.now) && LagProven(db.usage, clock) && Mine(db.budget, r, s)
    ensures Decide(db, r, clock) == Allow(None) <==>
            Solvent(db, r, clock.now) && LagProven(db.usage, clock) && Readable(r.orchestrator) &&
            NoSession(db.budget, r.stateId) && r.authId == ""
  {
    hide *;
    AllowMeaning(db, r, clock);
    PermittedMeans(db, r, clock);
    if Solvent(db, r, clock.now) {
      SolventBearer(db, r, clock.now);
      BoundMeans(db.budget, r);
      MineReadable(db.budget, r, s);
    }
  }

  lemma SolventBearer(db: DB, r: Request, now: int)
    requires Solvent(db, r, now)
    ensures r.credential.Bearer?
  {
  }

  lemma MineReadable(b: Budget, r: Request, s: Id)
    requires r.credential.Bearer?
    ensures Mine(b, r, s) ==> Readable(r.orchestrator)
  {
  }

  /** The session question is settled: there is none yet and none is claimed, or it is the caller's. */
  ghost predicate SessionSettled(b: Budget, r: Request)
    requires r.credential.Bearer?
  {
    (NoSession(b, r.stateId) && r.authId == "") || exists s :: Mine(b, r, s)
  }

  lemma SettledMeans(b: Budget, r: Request)
    requires OneSessionPerState(b) && r.credential.Bearer?
    ensures StateBound(b, r) <==> SessionSettled(b, r)
  {
    BoundMeans(b, r);
    hide StateBound, SessionFor, NoSession, Mine;
    if StateBound(b, r) {
      if SessionFor(b, r.stateId).Some? { assert Mine(b, r, SessionFor(b, r.stateId).value); }
    }
    if s :| Mine(b, r, s) { assert StateBound(b, r); }
  }

  /** What each refusal means: the first condition of the source's order that fails. */
  lemma RefusedIff(db: DB, r: Request, clock: Clock)
    requires OneSessionPerState(db.budget)
    ensures var d := Decide(db, r, clock);
            && (d == Refuse(401) <==> !KeyProven(db.budget, r))
            && (d == Refuse(402) <==> KeyProven(db.budget, r) && InUse(db.budget, r, clock.now) &&
                                      (Empty(db, r) || exists fee: nat :: Asks(db, r, fee) && fee > Purse(db, r)))
            && (d == Refuse(400) <==> KeyProven(db.budget, r) && InUse(db.budget, r, clock.now) && !Empty(db, r) && forall fee: nat :: !Asks(db, r, fee))
            && (d == Failed <==> Solvent(db, r, clock.now) && !Readable(r.orchestrator))
            && (d == Refuse(403) <==> KeyProven(db.budget, r) &&
                                      (!InUse(db.budget, r, clock.now) ||
                                       (Solvent(db, r, clock.now) && Readable(r.orchestrator) && !SessionSettled(db.budget, r))))
            && (d == Refuse(503) <==> Solvent(db, r, clock.now) && Readable(r.orchestrator) && SessionSettled(db.budget, r) && !LagProven(db.usage, clock))
  {
    LagIsProven(db.usage, clock);
    ReadableAddress(r.orchestrator);
    FeeAsked(db, r);
    SessionDecides(db, r, clock);
    hide KafkaLag.Reason, Address, Readable, Held, LagOf, DecideSession, SessionSettled, LagProven, Asks;
  }

  lemma FeeAsked(db: DB, r: Request)
    ensures KeyProven(db.budget, r) ==>
              var a := db.budget.allocations[db.budget.apiKeys[r.credential.keyId].allocation];
              var fee := if a.currency == Usd then r.feeUsd else r.feeWei;
              forall n: nat :: Asks(db, r, n) <==> fee == Some(n)
  {
  }

  lemma SessionDecides(db: DB, r: Request, clock: Clock)
    requires OneSessionPerState(db.budget)
    ensures r.credential.Bearer? && Address(r.orchestrator).Some? ==>
              var d := DecideSession(db, r, clock);
              var timely := KafkaLag.Reason(LagOf(db.usage, clock.topic), clock.now, clock.maxAge).Fresh?;
              && (d == Refuse(403) <==> !SessionSettled(db.budget, r))
              && (d == Refuse(503) <==> SessionSettled(db.budget, r) && !timely)
              && (d.Allow? || d == Refuse(403) || d == Refuse(503))
  {
    if r.credential.Bearer? { SettledMeans(db.budget, r); }
    SessionForMeaning(db.budget, r.stateId);
    hide KafkaLag.Reason, SessionFor, Matches, LagOf, SessionSettled;
  }

  // ---- The session that is created ----

  /** A new session is bound to what the request said, and to the key's allocation. */
  lemma CreatedSession(db: DB, r: Request, clock: Clock, id: Id)
    requires OneSessionPerState(db.budget) && Commit(db, r, clock, id).Ok? && Decide(db, r, clock) == Allow(None)
    ensures var (db', d) := Commit(db, r, clock, id).value;
            && d == Allow(Some(id)) && id !in db.budget.sessions && id in db'.budget.sessions && KeyProven(db.budget, r)
            && var s := db'.budget.sessions[id];
            && db' == db.(budget := db.budget.(sessions := db.budget.sessions[id := s]))
            && s.allocation == db.budget.apiKeys[r.credential.keyId].allocation && s.apiKey == r.credential.keyId
            && s.stateId == r.stateId && s.app == r.app && s.paymentType == r.paymentType && s.active
            && Names(r.orchestrator, s.orchestrator)
  {
    AllowedIff(db, r, clock, id);
    if Address(r.orchestrator).Some? { AddressNames(r.orchestrator, Address(r.orchestrator).value); }
    ReadableAddress(r.orchestrator);
    hide Decide, Names, Readable, Address, LagProven, InUse, Empty, Asks, Held;
  }

  /** Asked again, with or without its id, the new session is the answer. */
  lemma AnsweredAgain(db: DB, r: Request, clock: Clock, id: Id, again: Request)
    requires OneSessionPerState(db.budget) && Commit(db, r, clock, id).Ok? && Decide(db, r, clock) == Allow(None)
    requires again == r.(authId := again.authId) && (again.authId == "" || again.authId == id)
    ensures Decide(Commit(db, r, clock, id).value.0, again, clock) == Allow(Some(id))
  {
    hide *;
    CreatedSession(db, r, clock, id);
    AllowedIff(db, r, clock, id);
    SolventBearer(db, r, clock.now);
    var db' := Commit(db, r, clock, id).value.0;
    StillSolvent(db, db', r, again, clock);
    NewIsMine(db, db', r, again, id);
    AllowedIff(db', again, clock, id);
  }

  lemma StillSolvent(db: DB, db': DB, r: Request, again: Request, clock: Clock)
    requires Solvent(db, r, clock.now) && LagProven(db.usage, clock) && again == r.(authId := again.authId)
    requires db' == db.(budget := db.budget.(sessions := db'.budget.sessions))
    ensures Solvent(db', again, clock.now) && LagProven(db'.usage, clock)
  {
    hide Held, LagProven;
    var fee: nat :| Asks(db, r, fee) && fee <= Purse(db, r);
    assert Asks(db', again, fee);
  }

  lemma NewIsMine(db: DB, db': DB, r: Request, again: Request, id: Id)
    requires r.credential.Bearer? && again == r.(authId := again.authId) && (again.authId == "" || again.authId == id)
    requires OneSessionPerState(db.budget) && NoSession(db.budget, r.stateId) && id in db'.budget.sessions && id !in db.budget.sessions
    requires var s := db'.budget.sessions[id];
             && db'.budget == db.budget.(sessions := db.budget.sessions[id := s])
             && s.apiKey == r.credential.keyId && s.stateId == r.stateId && s.app == r.app && s.paymentType == r.paymentType && s.active
             && Names(r.orchestrator, s.orchestrator)
    ensures Mine(db'.budget, again, id) && OneSessionPerState(db'.budget)
  {
    hide Names;
  }
}

/**
 * Authorization decisions (internal/store/auth.go): what a signer webhook request is
 * answered from one snapshot of the database, and the session its write creates.
 */
module Authorize {
  import opened Results
  import opened Blocks
  import opened Tables
  import opened Books
  import opened Attribution
  import opened Ingestion
  import KafkaLag

  /** The bearer key: its id and the hash of its secret. */
  datatype Credential = NoCredential | Bearer(keyId: Id, hash: Id)

  /** The signer's state; fees are None when they do not parse. */
  datatype Request = Request(
    credential: Credential, stateId: Id, authId: Id, app: Id, paymentType: Id, orchestrator: string,
    feeWei: Option<nat>, feeUsd: Option<nat>)

  datatype Clock = Clock(now: int, maxAge: int, topic: Id)

  /** Allow names the session of the signer state, if it has one. */
  datatype Decision = Refuse(status: int) | Allow(session: Option<Id>) | Failed

  predicate InWindow(now: int, starts: Option<int>, ends: Option<int>) {
    (starts.Some? ==> now >= starts.value) && (ends.Some? ==> now < ends.value)
  }

  function SessionsWith(b: Budget, stateId: Id): set<Id> {
    set s | s in b.sessions && b.sessions[s].stateId == stateId
  }

  function SessionFor(b: Budget, stateId: Id): Option<Id> {
    var found := SessionsWith(b, stateId);
    if |found| == 1 then
      OnlyOne(found);
      var s :| s in found;
      Some(s)
    else None
  }

  predicate KeyKnown(b: Budget, id: Id) {
    id in b.apiKeys && b.apiKeys[id].allocation in b.allocations && b.allocations[b.apiKeys[id].allocation].grant in b.grants
  }

  function LagOf(u: Usage, topic: Id): KafkaLag.Lag {
    if topic in u.lag then u.lag[topic] else KafkaLag.Lag(0, 0, false)
  }

  /** The session of the state is the caller's own, as bound when it was created. */
  predicate Matches(s: Session, session: Id, r: Request, keyId: Id) {
    s.apiKey == keyId && s.app == r.app && s.paymentType == r.paymentType && Address(r.orchestrator) == Some(s.orchestrator) && s.active &&
    (r.authId != "" ==> r.authId == session)
  }

  function DecideSession(db: DB, r: Request, clock: Clock): Decision
    requires r.credential.Bearer?
  {
    var found := SessionFor(db.budget, r.stateId);
    if found.None? && r.authId != "" then Refuse(403)
    else if found.Some? && (found.value !in db.budget.sessions || !Matches(db.budget.sessions[found.value], found.value, r, r.credential.keyId)) then Refuse(403)
    else if KafkaLag.Reason(LagOf(db.usage, clock.topic), clock.now, clock.maxAge) != KafkaLag.Fresh then Refuse(503)
    else Allow(found)
  }

  function Decide(db: DB, r: Request, clock: Clock): Decision {
    if r.credential.NoCredential? || !KeyKnown(db.budget, r.credential.keyId) then Refuse(401) else
      var key := db.budget.apiKeys[r.credential.keyId];
      var a := db.budget.allocations[key.allocation];
      var g := db.budget.grants[a.grant];
      if r.credential.hash != key.secretHash || key.revoked then Refuse(401)
      else if g.status != ActiveGrant || (a.status != Active && a.status != Exhausted) ||
              !InWindow(clock.now, a.starts, a.ends) || !InWindow(clock.now, g.starts, g.ends) then Refuse(403)
      else
        var balance := Balance(db, AllocationAvailable, key.allocation, a.currency);
        var fee := if a.currency == Usd then r.feeUsd else r.feeWei;
        if a.status == Exhausted || balance <= 0 then Refuse(402)
        else if fee.None? then Refuse(400)
        else if balance < fee.value then Refuse(402)
        else if Address(r.orchestrator).None? then Failed
        else DecideSession(db, r, clock)
  }

  /** The state the write commits and what it answers; a new session gets the given id. */
  function Commit(db: DB, r: Request, clock: Clock, id: Id): Outcome<(DB, Decision)> {
    var d := Decide(db, r, clock);
    if d.Failed? then Err(InvalidInput)
    else if d != Allow(None) then Ok((db, d))
    else if id in db.budget.sessions || (exists s :: s in db.budget.sessions && db.budget.sessions[s].stateId == r.stateId) then Err(UniqueViolation)
    else
      var s := Session(db.budget.apiKeys[r.credential.keyId].allocation, r.credential.keyId, r.stateId, r.app, r.paymentType,
                       Address(r.orchestrator).value, true);
      Ok((db.(budget := db.budget.(sessions := db.budget.sessions[id := s])), Allow(Some(id))))
  }

  // ---- What an answer means ----

  /** Every condition of a grant of authorization, in the state it is decided in. */
  ghost predicate Permitted(db: DB, r: Request, clock: Clock) {
    && r.credential.Bearer? && KeyKnown(db.budget, r.credential.keyId)
    && var key := db.budget.apiKeys[r.credential.keyId];
    && var a := db.budget.allocations[key.allocation];
    && var g := db.budget.grants[a.grant];
    && key.secretHash == r.credential.hash && !key.revoked
    && g.status == ActiveGrant && a.status == Active
    && InWindow(clock.now, a.starts, a.ends) && InWindow(clock.now, g.starts, g.ends)
    && var fee := if a.currency == Usd then r.feeUsd else r.feeWei;
    && fee.Some? && Balance(db, AllocationAvailable, key.allocation, a.currency) > 0
    && Balance(db, AllocationAvailable, key.allocation, a.currency) >= fee.value
    && Address(r.orchestrator).Some?
    && KafkaLag.Reason(LagOf(db.usage, clock.topic), clock.now, clock.maxAge) == KafkaLag.Fresh
  }

  predicate StateBound(b: Budget, r: Request) {
    r.credential.Bearer? &&
    match SessionFor(b, r.stateId)
    case None => r.authId == ""
    case Some(s) => s in b.sessions && Matches(b.sessions[s], s, r, r.credential.keyId)
  }

  /** decide grants exactly what is permitted, to the session of the signer state. */
  lemma AllowMeaning(db: DB, r: Request, clock: Clock)
    ensures Decide(db, r, clock).Allow? <==> Permitted(db, r, clock) && StateBound(db.budget, r)
    ensures Decide(db, r, clock).Allow? ==> Decide(db, r, clock) == Allow(SessionFor(db.budget, r.stateId))
  {
    hide KafkaLag.Reason, Held, SessionFor, Matches;
  }

  ghost predicate OneSessionPerState(b: Budget) {
    forall s, t :: s in b.sessions && t in b.sessions && b.sessions[s].stateId == b.sessions[t].stateId ==> s == t
  }

  lemma SessionForMeaning(b: Budget, stateId: Id)
    requires OneSessionPerState(b)
    ensures SessionFor(b, stateId) == None <==> forall s :: s in b.sessions ==> b.sessions[s].stateId != stateId
    ensures forall s :: s in b.sessions && b.sessions[s].stateId == stateId ==> SessionFor(b, stateId) == Some(s)
    ensures SessionFor(b, stateId).Some? ==>
              SessionFor(b, stateId).value in b.sessions && b.sessions[SessionFor(b, stateId).value].stateId == stateId
  {
    var found := SessionsWith(b, stateId);
    forall s | s in b.sessions && b.sessions[s].stateId == stateId ensures found == {s} {
      assert s in found;
    }
    if |found| == 1 {
      OnlyOne(found);
      var s :| s in found;
      assert found == {s};
    }
  }

  /**
   * The write never collides: an id nobody has used is all it needs, since the decision
   * made under the lock already saw that the signer state has no session.
   */
  lemma CommitNeverCollides(db: DB, r: Request, clock: Clock, id: Id)
    requires OneSessionPerState(db.budget) && id !in db.budget.sessions
    ensures var c := Commit(db, r, clock, id);
            && (c.Err? <==> Decide(db, r, clock) == Failed)
            && (c.Ok? && c.value.1.Allow? ==>
                  Permitted(db, r, clock) && c.value.1.session.Some? && c.value.1.session.value in c.value.0.budget.sessions &&
                  c.value.0.budget.sessions[c.value.1.session.value].stateId == r.stateId)
            && (c.Ok? ==> OneSessionPerState(c.value.0.budget))
            && (c.Ok? && Decide(db, r, clock) == Allow(None) ==>
                  Permitted(db, r, clock) && id in c.value.0.budget.sessions && c.value.0.budget.sessions[id].stateId == r.stateId &&
                  forall s :: s in db.budget.sessions ==> db.budget.sessions[s].stateId != r.stateId)
            && (c.Ok? && Decide(db, r, clock) != Allow(None) ==> c.value == (db, Decide(db, r, clock)))
            && (c.Ok? && c.value.0 != db ==>
                  Decide(db, r, clock) == Allow(None) &&
                  c.value.0 == db.(budget := db.budget.(sessions := db.budget.sessions[id := c.value.0.budget.sessions[id]])))
  {
    AllowMeaning(db, r, clock);
    SessionForMeaning(db.budget, r.stateId);
    hide Decide, Permitted, SessionFor, Matches;
  }
}

/**
 * Concurrent two-phase authorization (Authorize in internal/store/auth.go:63-101): each
 * call decides on a snapshot, and again under the write lock before it creates a
 * session, while any other writes go on.
 */
module Races {
  import opened Results
  import opened Blocks
  import opened Tables
  import opened Invariant
  import opened IngestSteps
  import opened Authorize
  import opened ManagementKeeps
  import opened Runs
  import opened Progress

  /** A call has not read yet, must take the write lock, or is answered. */
  datatype Phase = Reading | Writing | Answered(decision: Decision)

  datatype Call = Call(request: Request, phase: Phase)

  /** A session creation, with the state it was committed to. */
  datatype Creation = Creation(before: DB, request: Request, clock: Clock, session: Id)

  datatype World = World(db: DB, calls: map<Id, Call>, created: seq<Creation>)

  datatype Step =
    | Begin(call: Id, request: Request)
    | Read(call: Id, clock: Clock)
    | Lock(call: Id, clock: Clock, id: Id)
    | Other(op: Op)

  function Advance(w: World, step: Step): World {
    match step
    case Begin(call, request) => if call in w.calls then w else w.(calls := w.calls[call := Call(request, Reading)])
    case Read(call, clock) =>
      if call !in w.calls || w.calls[call].phase != Reading then w else
        var r := w.calls[call].request;
        var d := Decide(w.db, r, clock);
        w.(calls := w.calls[call := Call(r, if d == Allow(None) then Writing else Answered(d))])
    case Lock(call, clock, id) =>
      if call !in w.calls || w.calls[call].phase != Writing then w else
        var r := w.calls[call].request;
        var c := Commit(w.db, r, clock, id);
        if c.Err? then w.(calls := w.calls[call := Call(r, Answered(Failed))])
        else
          World(c.value.0, w.calls[call := Call(r, Answered(c.value.1))],
                if Decide(w.db, r, clock) == Allow(None) then w.created + [Creation(w.db, r, clock, id)] else w.created)
    case Other(op) => w.(db := Next(w.db, op))
  }

  ghost predicate StepEnabled(w: World, step: Step) {
    match step
    case Lock(_, _, id) => id !in w.db.budget.sessions
    case Other(op) => Enabled(w.db, op)
    case _ => true
  }

  const START := World(EMPTY, map[], [])

  ghost function Race(steps: seq<Step>): World {
    if steps == [] then START else Advance(Race(steps[..|steps| - 1]), steps[|steps| - 1])
  }

  ghost predicate Fair(steps: seq<Step>) {
    steps == [] || (Fair(steps[..|steps| - 1]) && StepEnabled(Race(steps[..|steps| - 1]), steps[|steps| - 1]))
  }

  // ---- The invariant ----

  /** A granted call names the one session of its signer state. */
  predicate GrantedWell(b: Budget, c: Call) {
    c.phase.Answered? && c.phase.decision.Allow? ==>
      c.phase.decision.session.Some? && c.phase.decision.session.value in b.sessions &&
      b.sessions[c.phase.decision.session.value].stateId == c.request.stateId
  }

  /** A creation met every check in the very state it was committed to, and no session of its state existed. */
  ghost predicate CreatedWell(b: Budget, c: Creation) {
    && Permitted(c.before, c.request, c.clock)
    && (forall s :: s in c.before.budget.sessions ==> c.before.budget.sessions[s].stateId != c.request.stateId)
    && c.session in b.sessions && b.sessions[c.session].stateId == c.request.stateId
  }

  ghost predicate CreationsDiffer(created: seq<Creation>) {
    forall i, j :: 0 <= i < j < |created| ==> created[i].request.stateId != created[j].request.stateId
  }

  ghost predicate RaceInv(w: World) {
    && Inv(w.db)
    && (forall c :: c in w.calls ==> GrantedWell(w.db.budget, w.calls[c]))
    && (forall i :: 0 <= i < |w.created| ==> CreatedWell(w.db.budget, w.created[i]))
    && CreationsDiffer(w.created)
  }

  lemma Unique(db: DB)
    requires Inv(db)
    ensures OneSessionPerState(db.budget)
  {
    InvConjuncts(db);
    hide Inv;
  }

  lemma AnswersPersist(w: World, db': DB)
    requires RaceInv(w) && Inv(db') && SameBindings(w.db.budget, db'.budget)
    ensures RaceInv(w.(db := db'))
  {
    hide Inv, Permitted;
    forall c | c in w.calls ensures GrantedWell(db'.budget, w.calls[c]) { assert GrantedWell(w.db.budget, w.calls[c]); }
    forall i | 0 <= i < |w.created| ensures CreatedWell(db'.budget, w.created[i]) { assert CreatedWell(w.db.budget, w.created[i]); }
  }

  lemma Grant(b: Budget, r: Request, d: Decision)
    requires d.Allow? ==> d.session.Some? && d.session.value in b.sessions && b.sessions[d.session.value].stateId == r.stateId
    ensures GrantedWell(b, Call(r, Answered(d)))
  {
  }

  lemma ReadGrants(db: DB, r: Request, clock: Clock)
    requires Inv(db) && Decide(db, r, clock) != Allow(None)
    ensures GrantedWell(db.budget, Call(r, Answered(Decide(db, r, clock))))
  {
    hide *;
    Unique(db);
    AllowMeaning(db, r, clock);
    SessionForMeaning(db.budget, r.stateId);
    Grant(db.budget, r, Decide(db, r, clock));
  }

  lemma ReadKeeps(w: World, call: Id, clock: Clock)
    requires RaceInv(w)
    ensures RaceInv(Advance(w, Read(call, clock)))
  {
    hide Inv, Decide, CreatedWell;
    if call in w.calls && w.calls[call].phase == Reading && Decide(w.db, w.calls[call].request, clock) != Allow(None) {
      ReadGrants(w.db, w.calls[call].request, clock);
    }
  }

  lemma LockedCommit(db: DB, r: Request, clock: Clock, id: Id)
    requires Inv(db) && id !in db.budget.sessions && Commit(db, r, clock, id).Ok?
    ensures var c := Commit(db, r, clock, id).value;
            && Inv(c.0) && SameBindings(db.budget, c.0.budget) && GrantedWell(c.0.budget, Call(r, Answered(c.1)))
            && (Decide(db, r, clock) == Allow(None) ==>
                  Permitted(db, r, clock) && id in c.0.budget.sessions && c.0.budget.sessions[id].stateId == r.stateId &&
                  forall s :: s in db.budget.sessions ==> db.budget.sessions[s].stateId != r.stateId)
  {
    hide *;
    Unique(db);
    CommitInv(db, r, clock, id);
    var c := Commit(db, r, clock, id).value;
    SideBindings(db, c.0);
    CommitNeverCollides(db, r, clock, id);
    Grant(c.0.budget, r, c.1);
  }

  lemma LockKeeps(w: World, call: Id, clock: Clock, id: Id)
    requires RaceInv(w) && id !in w.db.budget.sessions
    ensures RaceInv(Advance(w, Lock(call, clock, id)))
  {
    hide Inv, Permitted, Commit, Decide, SameBindings, GrantedWell, CreatedWell, CreationsDiffer;
    if call in w.calls && w.calls[call].phase == Writing {
      var r := w.calls[call].request;
      var c := Commit(w.db, r, clock, id);
      if c.Ok? {
        LockedCommit(w.db, r, clock, id);
        AnswersPersist(w, c.value.0);
        if Decide(w.db, r, clock) == Allow(None) {
          CreationAdded(w, r, clock, id, c.value.0);
        }
      } else {
        Grant(w.db.budget, r, Failed);
      }
    }
  }

  lemma SideBindings(db: DB, db': DB)
    requires ManagementSide(db, db')
    ensures SameBindings(db.budget, db'.budget)
  {
  }

  lemma CreationAdded(w: World, r: Request, clock: Clock, id: Id, db': DB)
    requires RaceInv(w) && RaceInv(w.(db := db')) && Permitted(w.db, r, clock)
    requires forall s :: s in w.db.budget.sessions ==> w.db.budget.sessions[s].stateId != r.stateId
    requires id in db'.budget.sessions && db'.budget.sessions[id].stateId == r.stateId
    ensures var created := w.created + [Creation(w.db, r, clock, id)];
            CreationsDiffer(created) && forall i :: 0 <= i < |created| ==> CreatedWell(db'.budget, created[i])
  {
    hide Inv, Permitted;
    forall i | 0 <= i < |w.created| ensures w.created[i].request.stateId != r.stateId {
      assert CreatedWell(w.db.budget, w.created[i]);
    }
    forall i | 0 <= i < |w.created| ensures CreatedWell(db'.budget, w.created[i]) {
      assert CreatedWell(w.(db := db').db.budget, w.(db := db').created[i]);
    }
  }

  lemma StepKeepsRace(w: World, step: Step)
    requires RaceInv(w) && StepEnabled(w, step)
    ensures RaceInv(Advance(w, step))
  {
    hide Inv, Permitted, Next, Enabled, Decide, Commit, SameBindings, CreatedWell;
    match step
    case Begin(call, request) =>
    case Read(call, clock) => ReadKeeps(w, call, clock);
    case Lock(call, clock, id) => LockKeeps(w, call, clock, id);
    case Other(op) =>
      StepKeepsInv(w.db, op);
      StepGrows(w.db, op);
      AnswersPersist(w, Next(w.db, op));
  }

  lemma {:induction false} RaceKeeps(steps: seq<Step>)
    requires Fair(steps)
    ensures RaceInv(Race(steps))
  {
    hide Inv, Advance, StepEnabled;
    if steps == [] {
      EmptyInv();
    } else {
      RaceKeeps(steps[..|steps| - 1]);
      hide RaceInv;
      StepKeepsRace(Race(steps[..|steps| - 1]), steps[|steps| - 1]);
    }
  }

  // ---- What every race guarantees ----

  predicate GrantedTo(w: World, call: Id, stateId: Id, session: Id) {
    call in w.calls && w.calls[call].request.stateId == stateId && w.calls[call].phase == Answered(Allow(Some(session)))
  }

  /**
   * Over any interleaving, all grants for one signer state carry the same session, a
   * signer state has one session, and at most one creation, which met every check of
   * the decision in the state it was committed to.
   */
  lemma OneSession(steps: seq<Step>, stateId: Id, a: Id, b: Id, s: Id, t: Id)
    requires Fair(steps) && GrantedTo(Race(steps), a, stateId, s) && GrantedTo(Race(steps), b, stateId, t)
    ensures s == t
    ensures forall x :: x in Race(steps).db.budget.sessions && Race(steps).db.budget.sessions[x].stateId == stateId ==> x == s
    ensures CreationsDiffer(Race(steps).created)
    ensures forall i :: 0 <= i < |Race(steps).created| ==> CreatedWell(Race(steps).db.budget, Race(steps).created[i])
  {
    hide Inv, Race, Fair, Permitted;
    RaceKeeps(steps);
    var w := Race(steps);
    Unique(w.db);
    assert GrantedWell(w.db.budget, w.calls[a]) && GrantedWell(w.db.budget, w.calls[b]);
  }

  /** Under the lock the insert never collides: the only failure left is an unusable orchestrator address. */
  lemma LockNeverCollides(steps: seq<Step>, r: Request, clock: Clock, id: Id)
    requires Fair(steps) && id !in Race(steps).db.budget.sessions
    ensures Commit(Race(steps).db, r, clock, id).Err? <==> Decide(Race(steps).db, r, clock) == Failed
  {
    hide Inv, Race, Fair, Permitted, CreatedWell, Decide, Commit;
    RaceKeeps(steps);
    var w := Race(steps);
    Unique(w.db);
    CommitNeverCollides(w.db, r, clock, id);
  }

  lemma AnswerKept(w: World, step: Step, call: Id, stateId: Id, s: Id)
    requires GrantedTo(w, call, stateId, s)
    ensures GrantedTo(Advance(w, step), call, stateId, s)
  {
    hide Commit, Decide, Next;
  }

  /**
   * A grant once given stays as it is however the race goes on, and every grant for its
   * signer state given since carries the same session.
   */
  lemma {:induction false} GrantsPersist(steps: seq<Step>, more: seq<Step>, call: Id, stateId: Id, s: Id)
    requires Fair(steps + more) && GrantedTo(Race(steps), call, stateId, s)
    ensures GrantedTo(Race(steps + more), call, stateId, s)
    ensures forall later, t :: GrantedTo(Race(steps + more), later, stateId, t) ==> t == s
  {
    hide GrantedTo, Advance, StepEnabled, CreatedWell, CreationsDiffer;
    if more == [] {
      assert steps + more == steps;
    } else {
      var front := more[..|more| - 1];
      assert (steps + more)[..|steps + more| - 1] == steps + front;
      GrantsPersist(steps, front, call, stateId, s);
      AnswerKept(Race(steps + front), more[|more| - 1], call, stateId, s);
    }
    forall later, t | GrantedTo(Race(steps + more), later, stateId, t) ensures t == s {
      OneSession(steps + more, stateId, later, call, t, s);
    }
  }
}

/**
 * Settlement attribution (rematch in internal/store/ingest.go): a settlement belongs
 * to the one payment session that signed for its ticket session and recipient.
 */
module Attribution {
  import opened Results
  import opened Totals
  import opened Blocks
  import opened Tables
  import opened Books
  import opened Summaries

  // ---- What the authorizations say ----

  function SessionsFor(u: Usage, pm: Id, orch: Id): set<Id> {
    set p | p in u.authorizations && u.authorizations[p].pm == pm && u.authorizations[p].orchestrator == orch ::
      u.authorizations[p].session
  }

  lemma OnlyOne(s: set<Id>)
    requires |s| == 1
    ensures forall x, y :: x in s && y in s ==> x == y
  {
    forall x | x in s ensures s == {x} {
      assert |s - {x}| == 0;
      assert s - {x} == {};
    }
  }

  function WantedMatch(sessions: set<Id>): Match {
    if sessions == {} then Unmatched
    else if |sessions| == 1 then
      OnlyOne(sessions);
      var s :| s in sessions;
      Matched(s)
    else Ambiguous
  }

  lemma WantedMatchMeaning(sessions: set<Id>)
    ensures WantedMatch(sessions) == Unmatched <==> sessions == {}
    ensures forall s :: WantedMatch(sessions) == Matched(s) <==> sessions == {s}
    ensures WantedMatch(sessions) == Ambiguous <==> exists s, t :: s in sessions && t in sessions && s != t
  {
    if |sessions| == 1 {
      OnlyOne(sessions);
      var s :| s in sessions;
      assert sessions == {s};
    } else if sessions != {} {
      var s :| s in sessions;
      assert |sessions - {s}| >= 1;
      var t :| t in sessions - {s};
      assert s in sessions && t in sessions && s != t;
    }
  }

  /** Attribution moves one way only. */
  predicate Later(m: Match, n: Match) {
    m == n || m == Unmatched || (m.Matched? && n == Ambiguous)
  }

  lemma MoreSessions(s: set<Id>, t: set<Id>)
    requires s <= t
    ensures Later(WantedMatch(s), WantedMatch(t))
  {
    WantedMatchMeaning(s);
    WantedMatchMeaning(t);
    if WantedMatch(s) == Ambiguous {
      var x, y :| x in s && y in s && x != y;
      assert x in t && y in t;
    } else if WantedMatch(s).Matched? {
      var x := WantedMatch(s).session;
      assert s == {x};
      if t != {x} {
        var y :| y in t && y != x;
        assert x in t && y in t;
      }
    }
  }

  // ---- rematch ----

  predicate Concerns(row: SettlementRow, pm: Id, orch: Id) {
    row.data.ticket.pm == pm && row.data.recipient == orch
  }

  /** The changed rows of one status and match status. */
  function Bucket(settlements: map<LogId, SettlementRow>, pm: Id, orch: Id, wanted: Match, settled: bool, tag: MatchTag): set<LogId> {
    set id | id in settlements && Concerns(settlements[id], pm, orch) && settlements[id].matching != wanted &&
             settlements[id].settled == settled && Tag(settlements[id].matching) == tag
  }

  function Regroup(s: Summary, settled: bool, before: MatchTag, next: MatchTag, n: int): Outcome<Summary> {
    if before == next then Ok(s) else
      var s1 :- ChangeCount(s, Settlements(settled, before), -n);
      ChangeCount(s1, Settlements(settled, next), n)
  }

  function RegroupState(s: Summary, settlements: map<LogId, SettlementRow>, pm: Id, orch: Id, wanted: Match, settled: bool): Outcome<Summary> {
    var s1 :- Regroup(s, settled, AmbiguousTag, Tag(wanted), |Bucket(settlements, pm, orch, wanted, settled, AmbiguousTag)|);
    var s2 :- Regroup(s1, settled, MatchedTag, Tag(wanted), |Bucket(settlements, pm, orch, wanted, settled, MatchedTag)|);
    Regroup(s2, settled, UnmatchedTag, Tag(wanted), |Bucket(settlements, pm, orch, wanted, settled, UnmatchedTag)|)
  }

  function Rewritten(settlements: map<LogId, SettlementRow>, pm: Id, orch: Id, wanted: Match): map<LogId, SettlementRow> {
    map id | id in settlements ::
      if Concerns(settlements[id], pm, orch) then settlements[id].(matching := wanted) else settlements[id]
  }

  function Rematch(db: DB, pm: Id, orch: Id): Outcome<DB> {
    var wanted := WantedMatch(SessionsFor(db.usage, pm, orch));
    var s1 :- RegroupState(db.summary, db.escrow.settlements, pm, orch, wanted, false);
    var s2 :- RegroupState(s1, db.escrow.settlements, pm, orch, wanted, true);
    Ok(db.(summary := s2, escrow := db.escrow.(settlements := Rewritten(db.escrow.settlements, pm, orch, wanted))))
  }

  // ---- rematch keeps the counts ----

  /** The rows that leave a match status for the wanted one. */
  function Leaving(settlements: map<LogId, SettlementRow>, pm: Id, orch: Id, wanted: Match, settled: bool, tag: MatchTag): set<LogId> {
    if tag == Tag(wanted) then {} else Bucket(settlements, pm, orch, wanted, settled, tag)
  }

  function Left(settlements: map<LogId, SettlementRow>, pm: Id, orch: Id, wanted: Match, settled: bool, tag: MatchTag): int {
    |Leaving(settlements, pm, orch, wanted, settled, tag)|
  }

  function Joined(settlements: map<LogId, SettlementRow>, pm: Id, orch: Id, wanted: Match, settled: bool): int {
    Left(settlements, pm, orch, wanted, settled, AmbiguousTag) + Left(settlements, pm, orch, wanted, settled, MatchedTag) +
    Left(settlements, pm, orch, wanted, settled, UnmatchedTag)
  }

  function Net(settlements: map<LogId, SettlementRow>, pm: Id, orch: Id, wanted: Match, key: CountKey, settled: bool): int {
    if !key.Settlements? || key.settled != settled then 0
    else if key.matching == Tag(wanted) then Joined(settlements, pm, orch, wanted, settled)
    else -Left(settlements, pm, orch, wanted, settled, key.matching)
  }

  lemma RegroupEffect(s: Summary, settled: bool, before: MatchTag, next: MatchTag, n: int)
    requires n >= 0
    requires before != next ==> CountOf(s, Settlements(settled, before)) >= n
    requires CountOf(s, Settlements(settled, next)) >= 0
    ensures Regroup(s, settled, before, next, n).Ok?
    ensures var t := Regroup(s, settled, before, next, n).value;
            t.amounts == s.amounts && t.tracked == s.tracked &&
            forall k :: CountOf(t, k) == CountOf(s, k) +
              (if before == next then 0
               else if k == Settlements(settled, before) then -n
               else if k == Settlements(settled, next) then n else 0)
  {
    hide CountOf, ChangeCount;
    if before != next {
      ChangeCountEffect(s, Settlements(settled, before), -n);
      ChangeCountEffect(ChangeCount(s, Settlements(settled, before), -n).value, Settlements(settled, next), n);
    }
  }

  lemma RegroupStateEffect(s: Summary, settlements: map<LogId, SettlementRow>, pm: Id, orch: Id, wanted: Match, settled: bool)
    requires forall tag :: CountOf(s, Settlements(settled, tag)) >= Left(settlements, pm, orch, wanted, settled, tag)
    ensures RegroupState(s, settlements, pm, orch, wanted, settled).Ok?
    ensures var t := RegroupState(s, settlements, pm, orch, wanted, settled).value;
            t.amounts == s.amounts && t.tracked == s.tracked &&
            forall k :: CountOf(t, k) == CountOf(s, k) + Net(settlements, pm, orch, wanted, k, settled)
  {
    hide CountOf, Regroup, Bucket;
    var to := Tag(wanted);
    var na := |Bucket(settlements, pm, orch, wanted, settled, AmbiguousTag)|;
    var nm := |Bucket(settlements, pm, orch, wanted, settled, MatchedTag)|;
    var nu := |Bucket(settlements, pm, orch, wanted, settled, UnmatchedTag)|;
    assert CountOf(s, Settlements(settled, to)) >= 0;
    assert CountOf(s, Settlements(settled, AmbiguousTag)) >= Left(settlements, pm, orch, wanted, settled, AmbiguousTag);
    assert CountOf(s, Settlements(settled, MatchedTag)) >= Left(settlements, pm, orch, wanted, settled, MatchedTag);
    assert CountOf(s, Settlements(settled, UnmatchedTag)) >= Left(settlements, pm, orch, wanted, settled, UnmatchedTag);
    RegroupThree(s, settled, to, na, nm, nu);
    var t := RegroupState(s, settlements, pm, orch, wanted, settled).value;
    forall k ensures CountOf(t, k) == CountOf(s, k) + Net(settlements, pm, orch, wanted, k, settled) {
      if k.Settlements? && k.settled == settled {
        assert k == Settlements(settled, k.matching);
      }
    }
  }

  lemma RegroupThree(s: Summary, settled: bool, to: MatchTag, na: nat, nm: nat, nu: nat)
    requires CountOf(s, Settlements(settled, to)) >= 0
    requires to != AmbiguousTag ==> CountOf(s, Settlements(settled, AmbiguousTag)) >= na
    requires to != MatchedTag ==> CountOf(s, Settlements(settled, MatchedTag)) >= nm
    requires to != UnmatchedTag ==> CountOf(s, Settlements(settled, UnmatchedTag)) >= nu
    ensures var r1 := Regroup(s, settled, AmbiguousTag, to, na);
            && r1.Ok?
            && var r2 := Regroup(r1.value, settled, MatchedTag, to, nm);
            && r2.Ok?
            && var r3 := Regroup(r2.value, settled, UnmatchedTag, to, nu);
            && r3.Ok? && r3.value.amounts == s.amounts && r3.value.tracked == s.tracked
            && forall k :: CountOf(r3.value, k) == CountOf(s, k) +
                 (if k == Settlements(settled, to) then
                    (if to != AmbiguousTag then na else 0) + (if to != MatchedTag then nm else 0) + (if to != UnmatchedTag then nu else 0)
                  else if k == Settlements(settled, AmbiguousTag) then 0 - na
                  else if k == Settlements(settled, MatchedTag) then 0 - nm
                  else if k == Settlements(settled, UnmatchedTag) then 0 - nu else 0)
  {
    hide CountOf, Regroup;
    RegroupEffect(s, settled, AmbiguousTag, to, na);
    var s1 := Regroup(s, settled, AmbiguousTag, to, na).value;
    RegroupEffect(s1, settled, MatchedTag, to, nm);
    var s2 := Regroup(s1, settled, MatchedTag, to, nm).value;
    RegroupEffect(s2, settled, UnmatchedTag, to, nu);
  }

  /** What the rewritten rows add to one count. */
  lemma RewrittenCount(settlements: map<LogId, SettlementRow>, pm: Id, orch: Id, wanted: Match, settled: bool, tag: MatchTag)
    ensures var key := Settlements(settled, tag);
            Total(Rewritten(settlements, pm, orch, wanted), SettlementCountWeight(key)) ==
            Total(settlements, SettlementCountWeight(key)) + Net(settlements, pm, orch, wanted, key, settled)
  {
    hide Total;
    var w := SettlementCountWeight(Settlements(settled, tag));
    var next := Rewritten(settlements, pm, orch, wanted);
    if tag != Tag(wanted) {
      var leaving := Bucket(settlements, pm, orch, wanted, settled, tag);
      Shifted(settlements, next, w, leaving, -1);
    } else {
      JoiningRows(settlements, pm, orch, wanted, settled);
      Shifted(settlements, next, w, Joining(settlements, pm, orch, wanted, settled), 1);
    }
  }

  function Joining(settlements: map<LogId, SettlementRow>, pm: Id, orch: Id, wanted: Match, settled: bool): set<LogId> {
    set id | id in settlements && Concerns(settlements[id], pm, orch) && settlements[id].settled == settled &&
             Tag(settlements[id].matching) != Tag(wanted)
  }

  lemma LeavingMeaning(settlements: map<LogId, SettlementRow>, pm: Id, orch: Id, wanted: Match, settled: bool, tag: MatchTag, id: LogId)
    ensures id in Leaving(settlements, pm, orch, wanted, settled, tag) <==>
            id in Joining(settlements, pm, orch, wanted, settled) && Tag(settlements[id].matching) == tag
  {
  }

  lemma ThreeParts(s: set<LogId>, a: set<LogId>, b: set<LogId>, c: set<LogId>)
    requires s == a + b + c && a !! b && a !! c && b !! c
    ensures |s| == |a| + |b| + |c|
  {
  }

  lemma LeavingApart(settlements: map<LogId, SettlementRow>, pm: Id, orch: Id, wanted: Match, settled: bool, tag: MatchTag, other: MatchTag)
    requires tag != other
    ensures Leaving(settlements, pm, orch, wanted, settled, tag) !! Leaving(settlements, pm, orch, wanted, settled, other)
  {
  }

  lemma JoiningParts(settlements: map<LogId, SettlementRow>, pm: Id, orch: Id, wanted: Match, settled: bool)
    ensures Joining(settlements, pm, orch, wanted, settled) ==
            Leaving(settlements, pm, orch, wanted, settled, AmbiguousTag) +
            Leaving(settlements, pm, orch, wanted, settled, MatchedTag) +
            Leaving(settlements, pm, orch, wanted, settled, UnmatchedTag)
  {
    hide Concerns, Joining, Leaving;
    forall id ensures id in Joining(settlements, pm, orch, wanted, settled) <==>
                      id in Leaving(settlements, pm, orch, wanted, settled, AmbiguousTag) ||
                      id in Leaving(settlements, pm, orch, wanted, settled, MatchedTag) ||
                      id in Leaving(settlements, pm, orch, wanted, settled, UnmatchedTag)
    {
      LeavingMeaning(settlements, pm, orch, wanted, settled, AmbiguousTag, id);
      LeavingMeaning(settlements, pm, orch, wanted, settled, MatchedTag, id);
      LeavingMeaning(settlements, pm, orch, wanted, settled, UnmatchedTag, id);
    }
  }

  lemma JoiningRows(settlements: map<LogId, SettlementRow>, pm: Id, orch: Id, wanted: Match, settled: bool)
    ensures |Joining(settlements, pm, orch, wanted, settled)| == Joined(settlements, pm, orch, wanted, settled)
  {
    hide Concerns, Joining, Leaving;
    JoiningParts(settlements, pm, orch, wanted, settled);
    LeavingApart(settlements, pm, orch, wanted, settled, AmbiguousTag, MatchedTag);
    LeavingApart(settlements, pm, orch, wanted, settled, AmbiguousTag, UnmatchedTag);
    LeavingApart(settlements, pm, orch, wanted, settled, MatchedTag, UnmatchedTag);
    ThreeParts(Joining(settlements, pm, orch, wanted, settled), Leaving(settlements, pm, orch, wanted, settled, AmbiguousTag),
               Leaving(settlements, pm, orch, wanted, settled, MatchedTag), Leaving(settlements, pm, orch, wanted, settled, UnmatchedTag));
  }

  lemma LeavingCounted(settlements: map<LogId, SettlementRow>, pm: Id, orch: Id, wanted: Match, settled: bool, tag: MatchTag)
    ensures Total(settlements, SettlementCountWeight(Settlements(settled, tag))) >= Left(settlements, pm, orch, wanted, settled, tag)
  {
    var w := SettlementCountWeight(Settlements(settled, tag));
    if tag == Tag(wanted) {
      NonNegative(settlements, w);
    } else {
      RewrittenCount(settlements, pm, orch, wanted, settled, tag);
      NonNegative(Rewritten(settlements, pm, orch, wanted), w);
    }
  }

  lemma UnderpaidRewritten(settlements: map<LogId, SettlementRow>, pm: Id, orch: Id, wanted: Match)
    ensures Total(Rewritten(settlements, pm, orch, wanted), SettlementCountWeight(SettlementsUnderpaid)) ==
            Total(settlements, SettlementCountWeight(SettlementsUnderpaid))
  {
    Shifted(settlements, Rewritten(settlements, pm, orch, wanted), SettlementCountWeight(SettlementsUnderpaid), {}, 0);
  }

  lemma AmountRewritten(settlements: map<LogId, SettlementRow>, pm: Id, orch: Id, wanted: Match, name: AmountName)
    ensures Total(Rewritten(settlements, pm, orch, wanted), SettlementWeight(name)) == Total(settlements, SettlementWeight(name))
  {
    Shifted(settlements, Rewritten(settlements, pm, orch, wanted), SettlementWeight(name), {}, 0);
  }

  /** rematch never fails, and moves only the match status of the rows it concerns. */
  lemma RematchResult(db: DB, pm: Id, orch: Id)
    requires CountsOk(db)
    ensures var r := Rematch(db, pm, orch);
            var wanted := WantedMatch(SessionsFor(db.usage, pm, orch));
            && r.Ok?
            && r.value == db.(summary := r.value.summary,
                              escrow := db.escrow.(settlements := Rewritten(db.escrow.settlements, pm, orch, wanted)))
            && r.value.summary.amounts == db.summary.amounts && r.value.summary.tracked == db.summary.tracked
            && CountsOk(r.value)
  {
    var rows := db.escrow.settlements;
    var wanted := WantedMatch(SessionsFor(db.usage, pm, orch));
    forall settled, tag ensures CountOf(db.summary, Settlements(settled, tag)) >= Left(rows, pm, orch, wanted, settled, tag) {
      LeavingCounted(rows, pm, orch, wanted, settled, tag);
    }
    hide CountOf, RegroupState, Left, Total, Rewritten, WantedMatch, SessionsFor, RebuiltCount, Net;
    RegroupStateEffect(db.summary, rows, pm, orch, wanted, false);
    var s1 := RegroupState(db.summary, rows, pm, orch, wanted, false).value;
    forall tag ensures CountOf(s1, Settlements(true, tag)) >= Left(rows, pm, orch, wanted, true, tag) {
      assert Net(rows, pm, orch, wanted, Settlements(true, tag), false) == 0 by { NetElsewhere(rows, pm, orch, wanted, Settlements(true, tag), false); }
    }
    RegroupStateEffect(s1, rows, pm, orch, wanted, true);
    var db' := Rematch(db, pm, orch).value;
    forall key ensures CountOf(db'.summary, key) == RebuiltCount(db', key) {
      RewrittenRebuilt(db, db', pm, orch, wanted, key);
    }
  }

  lemma NetElsewhere(rows: map<LogId, SettlementRow>, pm: Id, orch: Id, wanted: Match, key: CountKey, settled: bool)
    requires !key.Settlements? || key.settled != settled
    ensures Net(rows, pm, orch, wanted, key, settled) == 0
  {
  }

  lemma RewrittenRebuilt(db: DB, db': DB, pm: Id, orch: Id, wanted: Match, key: CountKey)
    requires db' == db.(summary := db'.summary, escrow := db.escrow.(settlements := Rewritten(db.escrow.settlements, pm, orch, wanted)))
    requires db'.summary.tracked == db.summary.tracked
    ensures RebuiltCount(db', key) == RebuiltCount(db, key) +
              Net(db.escrow.settlements, pm, orch, wanted, key, false) + Net(db.escrow.settlements, pm, orch, wanted, key, true)
  {
    hide Total, Rewritten, Left, Joined, GrantWeight, AllocationWeight, QuarantineWeight, SettlementCountWeight, TrackedCountWeight;
    match key
    case Settlements(settled, tag) => RewrittenCount(db.escrow.settlements, pm, orch, wanted, settled, tag);
    case SettlementsUnderpaid => UnderpaidRewritten(db.escrow.settlements, pm, orch, wanted);
    case _ =>
  }

  lemma RematchKeepsSummary(db: DB, pm: Id, orch: Id)
    requires SummaryOk(db)
    ensures Rematch(db, pm, orch).Ok? && SummaryOk(Rematch(db, pm, orch).value)
  {
    RematchResult(db, pm, orch);
    hide Rematch, CountsOk, Rewritten, WantedMatch, SessionsFor, Total;
    var db' := Rematch(db, pm, orch).value;
    var wanted := WantedMatch(SessionsFor(db.usage, pm, orch));
    forall name, currency | AmountRow(name, currency) ensures RebuiltAmount(db', name, currency) == RebuiltAmount(db, name, currency) {
      AmountRewritten(db.escrow.settlements, pm, orch, wanted, name);
    }
    assert forall k :: IsTracked(db, k) == IsTracked(db', k) && RebuiltTracked(db, k) == RebuiltTracked(db', k);
  }

  // ---- The attribution invariant ----

  predicate Attributed(u: Usage, row: SettlementRow) {
    row.matching == WantedMatch(SessionsFor(u, row.data.ticket.pm, row.data.recipient))
  }

  /**
   * Every settlement, settled or orphaned, is unmatched, matched or ambiguous exactly
   * as the authorizations for its ticket session and recipient name no session, one,
   * or several.
   */
  predicate AttributionOk(db: DB) {
    forall id :: id in db.escrow.settlements ==> Attributed(db.usage, db.escrow.settlements[id])
  }

  /** rematch repairs the rows it concerns, whatever they said. */
  lemma RematchAttributes(db: DB, pm: Id, orch: Id)
    requires CountsOk(db)
    requires forall id :: id in db.escrow.settlements && !Concerns(db.escrow.settlements[id], pm, orch) ==>
               Attributed(db.usage, db.escrow.settlements[id])
    ensures Rematch(db, pm, orch).Ok? && AttributionOk(Rematch(db, pm, orch).value)
  {
    RematchResult(db, pm, orch);
    hide Rematch, CountsOk, WantedMatch, SessionsFor;
  }
}

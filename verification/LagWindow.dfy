/**
 * The bounded fence window loses nothing: lagCoverage drops fences that are too
 * old to matter, and this module compares it with a monitor that keeps them all.
 */
module LagWindow {
  import opened Results
  import opened KafkaLag

  /** Every fence observed per partition since the last reset. */
  type Shadow = map<int, seq<Fence>>

  function All(s: Shadow, p: int): seq<Fence> {
    if p in s then s[p] else []
  }

  function Extended(s: Shadow, parts: seq<Snapshot>): Shadow {
    if parts == [] then s else
      var p := parts[|parts| - 1];
      var before := Extended(s, parts[..|parts| - 1]);
      before[p.partition := All(before, p.partition) + [Fence(p.end, p.observedAt)]]
  }

  /** The latest fence a checkpoint has crossed; 0 when there is none. */
  function Best(fences: seq<Fence>, next: int): (best: int)
    ensures best == 0 || exists f :: f in fences && f.end <= next && f.at == best
    ensures forall f :: f in fences && f.end <= next ==> f.at <= best
    ensures best >= 0
  {
    if fences == [] then 0 else
      var last := fences[|fences| - 1];
      var before := Best(fences[..|fences| - 1], next);
      assert fences == fences[..|fences| - 1] + [last];
      if last.end <= next && last.at > before then last.at else before
  }

  /** What the monitor that keeps every fence reports. */
  function FullReport(s: Shadow, parts: seq<Snapshot>, checked: int): int {
    if parts == [] then checked else
      var p := parts[|parts| - 1];
      var before := FullReport(s, parts[..|parts| - 1], checked);
      var best := Best(All(s, p.partition), p.next);
      if best < before then best else before
  }

  /** probe reads each partition of a sorted, compacted list once. */
  predicate Distinct(parts: seq<Snapshot>) {
    forall i, j :: 0 <= i < j < |parts| ==> parts[i].partition != parts[j].partition
  }

  datatype Call = Call(parts: seq<Snapshot>, checked: int)

  datatype Monitor = Monitor(coverage: Partitions, shadow: Shadow, last: int)

  function Observe(m: Monitor, call: Call, maxAge: int): Monitor {
    var out := Updated(m.coverage, call.parts, call.checked, maxAge);
    match out.error
    case None => Monitor(out.partitions, Extended(m.shadow, call.parts), call.checked)
    case Some(ClockBackwards) => Monitor(out.partitions, map p | p in m.shadow :: [], m.last)
    case Some(_) => m
  }

  /** The monitor after a run of updates. */
  function After(calls: seq<Call>, maxAge: int): Monitor {
    if calls == [] then Monitor(map[], map[], 0)
    else Observe(After(calls[..|calls| - 1], maxAge), calls[|calls| - 1], maxAge)
  }

  /** The checking clock never decreases. */
  predicate Ordered(calls: seq<Call>) {
    (forall i :: 0 <= i < |calls| ==> Distinct(calls[i].parts) && calls[i].checked >= 0) &&
    forall i, j :: 0 <= i < j < |calls| ==> calls[i].checked <= calls[j].checked
  }

  // ---- What the window keeps ----

  predicate Sorted(fences: seq<Fence>) {
    forall i, j :: 0 <= i < j < |fences| ==> fences[i].at <= fences[j].at && fences[i].end <= fences[j].end
  }

  predicate Retained(c: Coverage, cutoff: int) {
    forall f :: f in c.pending ==> f.end > c.next && f.at > cutoff
  }

  ghost predicate Faithful(c: Coverage, fences: seq<Fence>, cutoff: int) {
    && Sorted(c.pending) && Retained(c, cutoff)
    && 0 <= c.covered <= c.observed
    && (forall f :: f in c.pending ==> f in fences && c.covered <= f.at)
    && (forall f :: f in fences ==> 0 < f.at <= c.observed && f.end <= c.end)
    && (forall f :: f in fences && f.at > cutoff ==> if f.end <= c.next then f.at <= c.covered else f in c.pending)
    && (c.covered == 0 || exists f :: f in fences && f.end <= c.next && f.at == c.covered)
  }

  ghost predicate FaithfulWindow(m: Monitor, maxAge: int) {
    && m.coverage.Keys == m.shadow.Keys
    && forall p :: p in m.coverage ==> Faithful(m.coverage[p], m.shadow[p], Cutoff(m.last, maxAge))
  }

  lemma {:induction false} SweepMeaning(pending: seq<Fence>, next: int, cutoff: int, covered: int)
    requires Sorted(pending)
    requires forall f :: f in pending ==> covered <= f.at
    ensures var (c, rest) := Sweep(pending, next, cutoff, covered);
            && Sorted(rest) && covered <= c
            && (forall f :: f in rest ==> f in pending && f.end > next && f.at > cutoff && c <= f.at)
            && (forall f :: f in pending && f.at > cutoff ==> if f.end <= next then f.at <= c else f in rest)
            && (c == covered || exists f :: f in pending && f.end <= next && f.at == c)
  {
    if pending != [] {
      var f := pending[0];
      assert pending == [f] + pending[1..];
      if f.end <= next {
        SweepMeaning(pending[1..], next, cutoff, f.at);
      } else if f.at <= cutoff {
        SweepMeaning(pending[1..], next, cutoff, covered);
      } else {
        forall g | g in pending ensures g.end > next && g.at > cutoff && covered <= g.at {
          var i :| 0 <= i < |pending| && pending[i] == g;
        }
      }
    }
  }

  lemma AdvanceFaithful(prev: Coverage, fences: seq<Fence>, p: Snapshot, before: int, cutoff: int)
    requires Faithful(prev, fences, before) && before <= cutoff
    requires p.next >= prev.next && p.end >= prev.end && p.observedAt >= prev.observed && p.observedAt > 0
    ensures Faithful(Advance(prev, p, cutoff), fences + [Fence(p.end, p.observedAt)], cutoff)
  {
    hide Sweep;
    var f := Fence(p.end, p.observedAt);
    var pending := prev.pending + [f];
    assert pending[|prev.pending|] == f;
    SweepMeaning(pending, p.next, cutoff, prev.covered);
    var c := Advance(prev, p, cutoff);
    assert forall g :: g in pending ==> g in fences + [f];
    forall g | g in fences + [f] && g.at > cutoff
      ensures if g.end <= c.next then g.at <= c.covered else g in c.pending
    {
      if g in fences && g.end > prev.next { assert g in pending; }
    }
    if c.covered != 0 {
      var g :| (g in fences || g in pending) && g.end <= c.next && g.at == c.covered;
      assert g in fences + [f];
    }
  }

  predicate Accepted(c: Partitions, parts: seq<Snapshot>, checked: int) {
    forall i :: 0 <= i < |parts| ==>
      var p := parts[i];
      0 < p.observedAt <= checked &&
      (p.partition in c ==> p.next >= c[p.partition].next && p.end >= c[p.partition].end &&
                            p.observedAt >= c[p.partition].observed)
  }

  lemma {:induction false} NoneRefused(c: Partitions, parts: seq<Snapshot>, checked: int)
    requires Refused(c, parts, checked).None? && !ClockRegressed(c, parts)
    ensures Accepted(c, parts, checked)
  {
    if parts != [] {
      assert forall i :: 0 <= i < |parts[1..]| ==> parts[1..][i] == parts[i + 1];
      NoneRefused(c, parts[1..], checked);
      forall i | 1 <= i < |parts| ensures parts[i] == parts[1..][i - 1] {}
    }
  }

  predicate AdvancedTo(c: Partitions, out: Partitions, p: Snapshot, cutoff: int) {
    p.partition in out && out[p.partition] == Advance(Of(c, p.partition), p, cutoff)
  }

  predicate ExtendedBy(s: Shadow, out: Shadow, p: Snapshot) {
    p.partition in out && out[p.partition] == All(s, p.partition) + [Fence(p.end, p.observedAt)]
  }

  lemma LastIsNew(parts: seq<Snapshot>)
    requires Distinct(parts) && parts != []
    ensures var q := parts[..|parts| - 1];
            Distinct(q) && parts[|parts| - 1].partition !in Seen(q) &&
            Seen(parts) == Seen(q) + {parts[|parts| - 1].partition}
  {
    var q := parts[..|parts| - 1];
    assert parts == q + [parts[|parts| - 1]];
    SeenMore(q, parts[|parts| - 1]);
  }

  /** Each listed partition advances once from its old state; the others keep theirs. */
  lemma {:induction false} AdvancedOnce(c: Partitions, parts: seq<Snapshot>, cutoff: int)
    requires Distinct(parts)
    ensures AdvanceAll(c, parts, cutoff).Keys == c.Keys + Seen(parts)
    ensures forall i :: 0 <= i < |parts| ==> AdvancedTo(c, AdvanceAll(c, parts, cutoff), parts[i], cutoff)
    ensures forall p :: p in c && p !in Seen(parts) ==> AdvanceAll(c, parts, cutoff)[p] == c[p]
  {
    if parts != [] {
      var q := parts[..|parts| - 1];
      LastIsNew(parts);
      AdvancedOnce(c, q, cutoff);
      forall i | 0 <= i < |parts| ensures AdvancedTo(c, AdvanceAll(c, parts, cutoff), parts[i], cutoff) {
        if i < |q| { assert AdvancedTo(c, AdvanceAll(c, q, cutoff), q[i], cutoff); }
      }
    }
  }

  lemma {:induction false} ExtendedOnce(s: Shadow, parts: seq<Snapshot>)
    requires Distinct(parts)
    ensures Extended(s, parts).Keys == s.Keys + Seen(parts)
    ensures forall i :: 0 <= i < |parts| ==> ExtendedBy(s, Extended(s, parts), parts[i])
    ensures forall p :: p in s && p !in Seen(parts) ==> Extended(s, parts)[p] == s[p]
  {
    if parts != [] {
      var q := parts[..|parts| - 1];
      LastIsNew(parts);
      ExtendedOnce(s, q);
      forall i | 0 <= i < |parts| ensures ExtendedBy(s, Extended(s, parts), parts[i]) {
        if i < |q| { assert ExtendedBy(s, Extended(s, q), q[i]); }
      }
    }
  }

  lemma AdvanceAllFaithful(m: Monitor, parts: seq<Snapshot>, checked: int, maxAge: int)
    requires FaithfulWindow(m, maxAge) && m.last <= checked && m.coverage.Keys <= Seen(parts)
    requires Distinct(parts) && Accepted(m.coverage, parts, checked)
    ensures FaithfulWindow(Monitor(AdvanceAll(m.coverage, parts, Cutoff(checked, maxAge)), Extended(m.shadow, parts), checked), maxAge)
  {
    var cutoff := Cutoff(checked, maxAge);
    AdvancedOnce(m.coverage, parts, cutoff);
    ExtendedOnce(m.shadow, parts);
    var c, s := AdvanceAll(m.coverage, parts, cutoff), Extended(m.shadow, parts);
    forall p | p in c ensures Faithful(c[p], s[p], cutoff) {
      var i :| 0 <= i < |parts| && parts[i].partition == p;
      assert AdvancedTo(m.coverage, c, parts[i], cutoff) && ExtendedBy(m.shadow, s, parts[i]);
      if p in m.coverage {
        AdvanceFaithful(m.coverage[p], m.shadow[p], parts[i], Cutoff(m.last, maxAge), cutoff);
      } else {
        FirstFaithful(parts[i], cutoff);
      }
    }
  }

  /** A partition seen for the first time: no offset baseline is compared. */
  lemma FirstFaithful(p: Snapshot, cutoff: int)
    requires p.observedAt > 0
    ensures Faithful(Advance(NO_COVERAGE, p, cutoff), [] + [Fence(p.end, p.observedAt)], cutoff)
  {
    var f := Fence(p.end, p.observedAt);
    assert NO_COVERAGE.pending + [f] == [f];
    SweepMeaning([f], p.next, cutoff, 0);
    var c := Advance(NO_COVERAGE, p, cutoff);
    assert f in [] + [f];
  }

  lemma WindowKept(m: Monitor, call: Call, maxAge: int)
    requires FaithfulWindow(m, maxAge) && m.last <= call.checked && Distinct(call.parts)
    ensures FaithfulWindow(Observe(m, call, maxAge), maxAge)
  {
    RefusedIsNotClock(m.coverage, call.parts, call.checked);
    var error := Updated(m.coverage, call.parts, call.checked, maxAge).error;
    if error.None? {
      NoneRefused(m.coverage, call.parts, call.checked);
      AdvanceAllFaithful(m, call.parts, call.checked, maxAge);
    } else if error == Some(ClockBackwards) {
      ForgottenFaithful(m, maxAge);
    }
  }

  lemma ForgottenFaithful(m: Monitor, maxAge: int)
    requires FaithfulWindow(m, maxAge)
    ensures FaithfulWindow(Monitor(Forget(m.coverage), map p | p in m.shadow :: [], m.last), maxAge)
  {
  }

  lemma {:induction false} RunKeepsWindow(calls: seq<Call>, maxAge: int)
    requires Ordered(calls)
    ensures FaithfulWindow(After(calls, maxAge), maxAge)
    ensures 0 <= After(calls, maxAge).last
    ensures calls != [] ==> After(calls, maxAge).last <= calls[|calls| - 1].checked
    ensures calls == [] ==> After(calls, maxAge).last == 0
  {
    if calls != [] {
      var before := calls[..|calls| - 1];
      RunKeepsWindow(before, maxAge);
      WindowKept(After(before, maxAge), calls[|calls| - 1], maxAge);
    }
  }

  /** One partition: never more than the best crossed fence, and as much when that is recent. */
  predicate Agrees(covered: int, best: int, cutoff: int) {
    covered <= best && (best > cutoff ==> covered == best)
  }

  lemma FaithfulAgrees(c: Coverage, fences: seq<Fence>, cutoff: int)
    requires Faithful(c, fences, cutoff)
    ensures Agrees(c.covered, Best(fences, c.next), cutoff)
  {
  }

  /** The window is the uncovered fences above the cutoff. */
  ghost predicate KeepsYoung(c: Coverage, fences: seq<Fence>, cutoff: int) {
    forall f :: f in c.pending <==> f in fences && f.end > c.next && f.at > cutoff
  }

  lemma YoungKept(m: Monitor, maxAge: int)
    requires FaithfulWindow(m, maxAge)
    ensures forall p :: p in m.coverage ==> KeepsYoung(m.coverage[p], All(m.shadow, p), Cutoff(m.last, maxAge))
  {
    forall p | p in m.coverage ensures KeepsYoung(m.coverage[p], All(m.shadow, p), Cutoff(m.last, maxAge)) {
      assert Faithful(m.coverage[p], m.shadow[p], Cutoff(m.last, maxAge));
    }
  }

  /** Both reports are the least of the checking time and one bound per partition. */
  lemma {:induction false} ReportsCompare(c: Partitions, s: Shadow, parts: seq<Snapshot>, checked: int, cutoff: int, n: nat)
    requires Distinct(parts) && n <= |parts|
    requires forall i :: 0 <= i < |parts| ==>
               Agrees(Of(AdvanceAll(c, parts, cutoff), parts[i].partition).covered, Best(All(s, parts[i].partition), parts[i].next), cutoff)
    ensures Agrees(Least(c, parts[..n], cutoff, checked), FullReport(s, parts[..n], checked), cutoff)
  {
    if n > 0 {
      ReportsCompare(c, s, parts, checked, cutoff, n - 1);
      assert parts[..n][..n - 1] == parts[..n - 1];
      LaterLeaves(c, parts, cutoff, n);
    }
  }

  /** Later partitions do not touch a partition already advanced. */
  lemma {:induction false} LaterLeaves(c: Partitions, parts: seq<Snapshot>, cutoff: int, n: nat)
    requires Distinct(parts) && 0 < n <= |parts|
    ensures var p := parts[n - 1].partition;
            Of(AdvanceAll(c, parts[..n], cutoff), p) == Of(AdvanceAll(c, parts, cutoff), p)
    decreases |parts|
  {
    if n == |parts| {
      assert parts[..n] == parts;
    } else {
      var shorter := parts[..|parts| - 1];
      LaterLeaves(c, shorter, cutoff, n);
      assert shorter[..n] == parts[..n];
      assert parts[n - 1].partition != parts[|parts| - 1].partition;
    }
  }

  /**
   * In every run with a nondecreasing checking clock, a successful update never
   * reports more than the monitor that keeps every fence since the last reset,
   * reports exactly as much whenever that answer is younger than maxAge in whole
   * milliseconds, and keeps exactly the uncovered fences that young.
   */
  lemma WindowLosesNothing(calls: seq<Call>, call: Call, maxAge: int)
    requires Ordered(calls + [call])
    requires Updated(After(calls, maxAge).coverage, call.parts, call.checked, maxAge).error.None?
    ensures var m := After(calls, maxAge);
            var out := Updated(m.coverage, call.parts, call.checked, maxAge);
            var seen := Extended(m.shadow, call.parts);
            var full := FullReport(seen, call.parts, call.checked);
            var oldest := call.checked - maxAge / 1_000_000;
            && out.lag.coveredThrough <= full
            && (full > oldest ==> out.lag.coveredThrough == full)
            && forall p :: p in out.partitions ==>
                 forall f :: f in out.partitions[p].pending <==> f in All(seen, p) && f.end > out.partitions[p].next && f.at > oldest
  {
    OrderedPrefix(calls, call);
    RunKeepsWindow(calls, maxAge);
    UpdateLosesNothing(After(calls, maxAge), call, maxAge);
  }

  lemma OrderedPrefix(calls: seq<Call>, call: Call)
    requires Ordered(calls + [call])
    ensures Ordered(calls) && Distinct(call.parts) && call.checked >= 0
    ensures calls != [] ==> calls[|calls| - 1].checked <= call.checked
  {
    var all := calls + [call];
    assert all[|calls|] == call;
    assert forall i :: 0 <= i < |calls| ==> all[i] == calls[i];
  }

  lemma UpdateLosesNothing(m: Monitor, call: Call, maxAge: int)
    requires FaithfulWindow(m, maxAge) && m.last <= call.checked && Distinct(call.parts)
    requires Updated(m.coverage, call.parts, call.checked, maxAge).error.None?
    ensures var out := Updated(m.coverage, call.parts, call.checked, maxAge);
            var full := FullReport(Extended(m.shadow, call.parts), call.parts, call.checked);
            && Agrees(out.lag.coveredThrough, full, Cutoff(call.checked, maxAge))
            && forall p :: p in out.partitions ==> KeepsYoung(out.partitions[p], All(Extended(m.shadow, call.parts), p), Cutoff(call.checked, maxAge))
  {
    NoneRefused(m.coverage, call.parts, call.checked);
    hide Refused, ClockRegressed, Accepted, Seen, Least, FullReport, AdvanceAll, Extended, Best, Of, All, Distinct;
    AdvanceAllFaithful(m, call.parts, call.checked, maxAge);
    YoungKept(Monitor(AdvanceAll(m.coverage, call.parts, Cutoff(call.checked, maxAge)), Extended(m.shadow, call.parts), call.checked), maxAge);
    AllAgree(m, call, maxAge);
    ReportsCompare(m.coverage, Extended(m.shadow, call.parts), call.parts, call.checked, Cutoff(call.checked, maxAge), |call.parts|);
    assert call.parts[..|call.parts|] == call.parts;
  }

  lemma AllAgree(m: Monitor, call: Call, maxAge: int)
    requires Distinct(call.parts)
    requires FaithfulWindow(Monitor(AdvanceAll(m.coverage, call.parts, Cutoff(call.checked, maxAge)), Extended(m.shadow, call.parts), call.checked), maxAge)
    ensures forall i :: 0 <= i < |call.parts| ==>
              Agrees(Of(AdvanceAll(m.coverage, call.parts, Cutoff(call.checked, maxAge)), call.parts[i].partition).covered,
                     Best(All(Extended(m.shadow, call.parts), call.parts[i].partition), call.parts[i].next),
                     Cutoff(call.checked, maxAge))
  {
    var cutoff := Cutoff(call.checked, maxAge);
    AdvancedOnce(m.coverage, call.parts, cutoff);
    ExtendedOnce(m.shadow, call.parts);
    var c, s := AdvanceAll(m.coverage, call.parts, cutoff), Extended(m.shadow, call.parts);
    forall i | 0 <= i < |call.parts|
      ensures Agrees(Of(c, call.parts[i].partition).covered, Best(All(s, call.parts[i].partition), call.parts[i].next), cutoff)
    {
      var p := call.parts[i];
      assert AdvancedTo(m.coverage, c, p, cutoff) && ExtendedBy(m.shadow, s, p);
      FaithfulAgrees(c[call.parts[i].partition], s[call.parts[i].partition], cutoff);
    }
  }
}

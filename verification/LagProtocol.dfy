/**
 * Soundness of the lag proof as a protocol: producers append, ingest commits, the
 * monitor probes step by step, and everything interleaves. The clock counts
 * nanoseconds and never runs backwards; observations are truncated to milliseconds.
 */
module LagProtocol {
  import opened KafkaLag
  import opened LagWindow

  // ---- The world ----

  datatype Phase = Between | Observed(partition: int, at: int) | HaveNext(partition: int, at: int, next: int)

  datatype Probe =
    | Idle
    | Started(started: int)
    | Reading(started: int, todo: set<int>, phase: Phase, taken: seq<Snapshot>)
    | Storing(report: Lag)

  /**
   * `logs` holds the append instant of every record of every partition, `committed`
   * the durable ingest checkpoints, `lastRead` the latest clock reading of the monitor.
   */
  datatype World = World(
    clock: int, lastRead: int, logs: map<int, seq<int>>, committed: map<int, int>,
    coverage: Partitions, probe: Probe, published: Lag)

  const INITIAL := World(0, 0, map[], map[], map[], Idle, Lag(0, 0, false))

  datatype Step =
    | Tick(duration: int)
    | CreatePartition(created: int)
    | Append(appended: int)
    | Commit(ingested: int)
    | Begin
    | ListPartitions
    | Observe(observed: int)
    | ReadCheckpoint
    | ReadEnd
    | Evaluate
    | Fail
    | Publish(stored: bool)
    | Restart(invalidated: bool)

  function Ms(instant: int): int { instant / MILLISECOND }

  /**
   * One atomic step; a step that is not enabled changes nothing. With `strict`, an
   * append takes a later clock reading than the monitor's last one. A publication is a
   * step of its own, which the database may refuse; the monitor may also die at any
   * point, with or without the invalidation it defers.
   */
  function Next(w: World, step: Step, strict: bool, maxAge: int): World {
    match step
    case Tick(d) => if d >= 0 then w.(clock := w.clock + d) else w
    case CreatePartition(p) =>
      if p in w.logs then w else w.(logs := w.logs[p := []], committed := w.committed[p := 0])
    case Append(p) =>
      if p in w.logs && (strict ==> w.clock > w.lastRead) then w.(logs := w.logs[p := w.logs[p] + [w.clock]]) else w
    case Commit(p) =>
      if p in w.logs && p in w.committed && w.committed[p] < |w.logs[p]| then
        w.(committed := w.committed[p := w.committed[p] + 1])
      else w
    case Begin =>
      if w.probe.Idle? then w.(probe := Started(Ms(w.clock)), lastRead := w.clock) else w
    case ListPartitions =>
      if w.probe.Started? then w.(probe := Reading(w.probe.started, w.logs.Keys, Between, [])) else w
    case Observe(p) =>
      if w.probe.Reading? && w.probe.phase.Between? && p in w.probe.todo then
        w.(probe := w.probe.(phase := Observed(p, Ms(w.clock))), lastRead := w.clock)
      else w
    case ReadCheckpoint =>
      if w.probe.Reading? && w.probe.phase.Observed? && w.probe.phase.partition in w.committed then
        var o := w.probe.phase;
        w.(probe := w.probe.(phase := HaveNext(o.partition, o.at, w.committed[o.partition])))
      else w
    case ReadEnd =>
      if w.probe.Reading? && w.probe.phase.HaveNext? && w.probe.phase.partition in w.logs then
        var o := w.probe.phase;
        var end := |w.logs[o.partition]|;
        if 0 <= o.next <= end then
          w.(probe := w.probe.(todo := w.probe.todo - {o.partition}, phase := Between,
                               taken := w.probe.taken + [Snapshot(o.partition, end, o.next, o.at)]))
        else
          w.(probe := w.probe.(phase := Between))
      else w
    case Evaluate =>
      if w.probe.Reading? && w.probe.phase.Between? && w.probe.todo == {} then
        var out := Updated(w.coverage, w.probe.taken, Ms(w.clock), maxAge);
        w.(coverage := out.partitions, probe := Storing(Published(out.lag, w.probe.started)), lastRead := w.clock)
      else w
    case Fail =>
      if w.probe.Started? || w.probe.Reading? then w.(probe := Storing(Lag(w.probe.started, 0, false))) else w
    case Publish(stored) =>
      if w.probe.Storing? then w.(probe := Idle, published := if stored then w.probe.report else w.published) else w
    case Restart(invalidated) =>
      w.(probe := Idle, coverage := map[], published := if invalidated then Lag(0, 0, false) else w.published)
  }

  function Run(steps: seq<Step>, strict: bool, maxAge: int): World {
    if steps == [] then INITIAL
    else Next(Run(steps[..|steps| - 1], strict, maxAge), steps[|steps| - 1], strict, maxAge)
  }

  // ---- The invariant ----

  /** The record was appended after the instant `at`, or at it unless appends are strict. */
  predicate Since(strict: bool, appended: int, at: int) {
    if strict then appended > at * MILLISECOND else appended >= at * MILLISECOND
  }

  /** Every record from offset `from` on was appended since `at`. */
  predicate SinceFrom(strict: bool, log: seq<int>, from: int, at: int) {
    forall i :: 0 <= i < |log| && from <= i ==> Since(strict, log[i], at)
  }

  predicate Read(w: World, at: int) {
    at * MILLISECOND <= w.lastRead
  }

  ghost predicate Tables(w: World) {
    && w.committed.Keys == w.logs.Keys
    && w.lastRead <= w.clock
    && forall p :: p in w.logs ==> 0 <= w.committed[p] <= |w.logs[p]|
  }

  ghost predicate Proven(w: World, strict: bool, p: int, c: Coverage) {
    && p in w.logs && p in w.committed && c.next <= w.committed[p]
    && (c.covered > 0 ==> SinceFrom(strict, w.logs[p], c.next, c.covered) && Read(w, c.covered))
    && forall f :: f in c.pending ==> SinceFrom(strict, w.logs[p], f.end, f.at) && Read(w, f.at)
  }

  ghost predicate CoverageProven(w: World, strict: bool) {
    forall p :: p in w.coverage ==> Proven(w, strict, p, w.coverage[p])
  }

  /** Every record a report leaves out was appended since the instant it covers. */
  ghost predicate ReportProven(w: World, strict: bool, h: Lag) {
    h.available ==>
      Read(w, h.coveredThrough) &&
      forall p :: p in w.logs && p in w.committed ==> SinceFrom(strict, w.logs[p], w.committed[p], h.coveredThrough)
  }

  ghost predicate LagProven(w: World, strict: bool) {
    ReportProven(w, strict, w.published)
  }

  ghost predicate Sound(w: World, strict: bool, s: Snapshot) {
    && s.partition in w.logs && s.partition in w.committed && s.next <= w.committed[s.partition]
    && SinceFrom(strict, w.logs[s.partition], s.end, s.observedAt) && Read(w, s.observedAt)
  }

  ghost predicate TakenProven(w: World, strict: bool, started: int, todo: set<int>, taken: seq<Snapshot>) {
    && Read(w, started) && todo <= w.logs.Keys && todo !! Seen(taken) && Distinct(taken)
    && (forall p :: p in w.logs && p !in todo && p !in Seen(taken) ==> SinceFrom(strict, w.logs[p], 0, started))
    && (forall s :: s in taken ==> Sound(w, strict, s))
  }

  ghost predicate PhaseProven(w: World, todo: set<int>, phase: Phase) {
    match phase
    case Between => true
    case Observed(p, at) => p in todo && Read(w, at)
    case HaveNext(p, at, next) => p in todo && Read(w, at) && p in w.committed && next <= w.committed[p]
  }

  ghost predicate ProbeProven(w: World, strict: bool) {
    match w.probe
    case Idle => true
    case Started(started) => Read(w, started)
    case Reading(started, todo, phase, taken) =>
      TakenProven(w, strict, started, todo, taken) && PhaseProven(w, todo, phase)
    case Storing(report) => ReportProven(w, strict, report)
  }

  ghost predicate Inv(w: World, strict: bool) {
    Tables(w) && CoverageProven(w, strict) && LagProven(w, strict) && ProbeProven(w, strict)
  }

  // ---- Preservation ----

  /** Time passing, a later reading, an append, a commit or a new partition keep every proof. */
  ghost predicate Continues(w: World, v: World, strict: bool) {
    && w.lastRead <= v.lastRead
    && (forall p :: p in w.logs ==> p in v.logs && Extends(w, v, strict, w.logs[p], v.logs[p]))
    && (forall p :: p in v.logs && p !in w.logs ==> v.logs[p] == [])
    && (forall p :: p in w.committed ==> p in v.committed && w.committed[p] <= v.committed[p])
  }

  ghost predicate Extends(w: World, v: World, strict: bool, log: seq<int>, longer: seq<int>) {
    longer == log || (longer == log + [w.clock] && w.lastRead <= w.clock && (strict ==> w.lastRead < w.clock))
  }

  lemma PastGrows(w: World, v: World, strict: bool, log: seq<int>, longer: seq<int>, from: int, at: int)
    requires Extends(w, v, strict, log, longer) && SinceFrom(strict, log, from, at) && Read(w, at)
    ensures SinceFrom(strict, longer, from, at)
  {
  }

  lemma GrowthKeepsCoverage(w: World, v: World, strict: bool, p: int, c: Coverage)
    requires Continues(w, v, strict) && Proven(w, strict, p, c)
    ensures Proven(v, strict, p, c)
  {
    if c.covered > 0 { PastGrows(w, v, strict, w.logs[p], v.logs[p], c.next, c.covered); }
    forall f | f in c.pending ensures SinceFrom(strict, v.logs[p], f.end, f.at) && Read(v, f.at) {
      PastGrows(w, v, strict, w.logs[p], v.logs[p], f.end, f.at);
    }
  }

  lemma GrowthKeepsLag(w: World, v: World, strict: bool, h: Lag)
    requires Continues(w, v, strict) && Tables(w) && ReportProven(w, strict, h)
    ensures ReportProven(v, strict, h)
  {
    if h.available {
      forall p | p in v.logs && p in v.committed ensures SinceFrom(strict, v.logs[p], v.committed[p], h.coveredThrough) {
        if p in w.logs { PastGrows(w, v, strict, w.logs[p], v.logs[p], w.committed[p], h.coveredThrough); }
      }
    }
  }

  lemma GrowthKeepsSnapshot(w: World, v: World, strict: bool, s: Snapshot)
    requires Continues(w, v, strict) && Sound(w, strict, s)
    ensures Sound(v, strict, s)
  {
    PastGrows(w, v, strict, w.logs[s.partition], v.logs[s.partition], s.end, s.observedAt);
  }

  lemma GrowthKeepsTaken(w: World, v: World, strict: bool, started: int, todo: set<int>, taken: seq<Snapshot>)
    requires Continues(w, v, strict) && TakenProven(w, strict, started, todo, taken)
    ensures TakenProven(v, strict, started, todo, taken)
  {
    forall p | p in todo ensures p in v.logs { assert p in w.logs; }
    forall p | p in v.logs && p !in todo && p !in Seen(taken) ensures SinceFrom(strict, v.logs[p], 0, started) {
      if p in w.logs { PastGrows(w, v, strict, w.logs[p], v.logs[p], 0, started); }
    }
    forall s | s in taken ensures Sound(v, strict, s) { GrowthKeepsSnapshot(w, v, strict, s); }
  }

  /** Everything but the probe, which may be in another phase. */
  ghost predicate Settled(w: World, strict: bool) {
    Tables(w) && CoverageProven(w, strict) && LagProven(w, strict)
  }

  lemma GrowthKeeps(w: World, v: World, strict: bool)
    requires Continues(w, v, strict) && Tables(v) && Settled(w, strict)
    requires v.published == w.published && v.coverage == w.coverage
    ensures Settled(v, strict)
  {
    hide Proven, Continues;
    forall p | p in v.coverage ensures Proven(v, strict, p, v.coverage[p]) {
      GrowthKeepsCoverage(w, v, strict, p, v.coverage[p]);
    }
    GrowthKeepsLag(w, v, strict, w.published);
  }

  /** With the probe where it was, its findings stay sound. */
  lemma GrowthKeepsProbe(w: World, v: World, strict: bool)
    requires Continues(w, v, strict) && Tables(w) && ProbeProven(w, strict) && v.probe == w.probe
    ensures ProbeProven(v, strict)
  {
    if v.probe.Reading? {
      GrowthKeepsTaken(w, v, strict, v.probe.started, v.probe.todo, v.probe.taken);
    } else if v.probe.Storing? {
      GrowthKeepsLag(w, v, strict, v.probe.report);
    }
  }

  /** The probe reads the clock before the checkpoint and the end offset, so its snapshot is sound. */
  lemma ProbeStepKeeps(w: World, step: Step, strict: bool, maxAge: int)
    requires Inv(w, strict)
    requires step.Begin? || step.ListPartitions? || step.Observe? || step.ReadCheckpoint?
    ensures Inv(Next(w, step, strict, maxAge), strict)
  {
    hide Updated, Published, CoverageProven, LagProven, Sound, Distinct, Seen, SinceFrom;
    var v := Next(w, step, strict, maxAge);
    assert Continues(w, v, strict);
    GrowthKeeps(w, v, strict);
    if w.probe.Reading? {
      GrowthKeepsTaken(w, v, strict, w.probe.started, w.probe.todo, w.probe.taken);
    } else if v.probe.Reading? {
      NothingTaken(v, strict);
    } else if w.probe.Storing? {
      GrowthKeepsLag(w, v, strict, w.probe.report);
    }
  }

  lemma NothingTaken(v: World, strict: bool)
    requires v.probe.Reading? && v.probe.taken == [] && v.probe.todo == v.logs.Keys && Read(v, v.probe.started)
    ensures TakenProven(v, strict, v.probe.started, v.probe.todo, v.probe.taken)
  {
  }

  lemma ReadEndKeeps(w: World, strict: bool, maxAge: int)
    requires Inv(w, strict)
    ensures Inv(Next(w, ReadEnd, strict, maxAge), strict)
  {
    hide Updated, Published;
    var v := Next(w, ReadEnd, strict, maxAge);
    assert Continues(w, v, strict);
    GrowthKeeps(w, v, strict);
    hide CoverageProven, LagProven;
    if w.probe.Reading? {
      GrowthKeepsTaken(w, v, strict, w.probe.started, w.probe.todo, w.probe.taken);
      if w.probe.phase.HaveNext? {
        var o := w.probe.phase;
        TakeOne(v, strict, w.probe.started, w.probe.todo, w.probe.taken, Snapshot(o.partition, |w.logs[o.partition]|, o.next, o.at));
      }
    }
  }

  lemma TakeOne(v: World, strict: bool, started: int, todo: set<int>, taken: seq<Snapshot>, s: Snapshot)
    requires TakenProven(v, strict, started, todo, taken) && s.partition in todo && Sound(v, strict, s)
    ensures TakenProven(v, strict, started, todo - {s.partition}, taken + [s])
  {
    SeenMore(taken, s);
    DistinctMore(taken, s);
  }

  lemma DistinctMore(taken: seq<Snapshot>, s: Snapshot)
    requires Distinct(taken) && s.partition !in Seen(taken)
    ensures Distinct(taken + [s])
  {
    forall i | 0 <= i < |taken| ensures taken[i].partition in Seen(taken) {}
  }

  lemma {:induction false} SweptFrom(pending: seq<Fence>, next: int, cutoff: int, covered: int)
    ensures var (c, rest) := Sweep(pending, next, cutoff, covered);
            (forall f :: f in rest ==> f in pending) &&
            (c == covered || exists f :: f in pending && f.end <= next && f.at == c)
  {
    if pending != [] {
      assert pending == [pending[0]] + pending[1..];
      if pending[0].end <= next {
        SweptFrom(pending[1..], next, cutoff, pending[0].at);
      } else if pending[0].at <= cutoff {
        SweptFrom(pending[1..], next, cutoff, covered);
      }
    }
  }

  lemma AdvanceProven(w: World, strict: bool, prev: Coverage, s: Snapshot, cutoff: int)
    requires Sound(w, strict, s) && prev.next <= s.next
    requires Proven(w, strict, s.partition, prev)
    ensures Proven(w, strict, s.partition, Advance(prev, s, cutoff))
  {
    var pending := prev.pending + [Fence(s.end, s.observedAt)];
    SweptFrom(pending, s.next, cutoff, prev.covered);
    var c := Advance(prev, s, cutoff);
    assert forall f :: f in c.pending ==> f in prev.pending || f == Fence(s.end, s.observedAt);
  }

  lemma {:induction false} NotBackwards(c: Partitions, parts: seq<Snapshot>, checked: int, i: nat)
    requires i < |parts| && Refused(c, parts, checked).None?
    ensures parts[i].partition in c ==> c[parts[i].partition].next <= parts[i].next
  {
    if i > 0 { NotBackwards(c, parts[1..], checked, i - 1); }
  }

  lemma {:induction false} LeastBelow(c: Partitions, parts: seq<Snapshot>, cutoff: int, checked: int, n: nat)
    requires Distinct(parts) && n <= |parts|
    ensures Least(c, parts[..n], cutoff, checked) <= checked
    ensures forall i :: 0 <= i < n ==>
              Least(c, parts[..n], cutoff, checked) <= Of(AdvanceAll(c, parts, cutoff), parts[i].partition).covered
  {
    if n > 0 {
      LeastBelow(c, parts, cutoff, checked, n - 1);
      assert parts[..n][..n - 1] == parts[..n - 1];
      LaterLeaves(c, parts, cutoff, n);
    }
  }

  /** The snapshot from which a partition's coverage was advanced, if it was. */
  lemma AdvancedFrom(c: Partitions, parts: seq<Snapshot>, checked: int, maxAge: int, p: int) returns (i: nat)
    requires Distinct(parts) && Updated(c, parts, checked, maxAge).error.None?
    requires p in Updated(c, parts, checked, maxAge).partitions
    ensures i < |parts| && parts[i].partition == p && (p in c ==> c[p].next <= parts[i].next)
    ensures var out := Updated(c, parts, checked, maxAge).partitions;
            out[p] == Advance(Of(c, p), parts[i], Cutoff(checked, maxAge))
  {
    hide Advance, Least;
    var cutoff := Cutoff(checked, maxAge);
    AdvancedOnce(c, parts, cutoff);
    i :| 0 <= i < |parts| && parts[i].partition == p;
    assert AdvancedTo(c, AdvanceAll(c, parts, cutoff), parts[i], cutoff);
    NotBackwards(c, parts, checked, i);
  }

  /** A successful update keeps every partition's coverage proven. */
  lemma UpdateProven(w: World, strict: bool, parts: seq<Snapshot>, checked: int, maxAge: int)
    requires CoverageProven(w, strict) && Distinct(parts) && forall s :: s in parts ==> Sound(w, strict, s)
    ensures CoverageProven(w.(coverage := Updated(w.coverage, parts, checked, maxAge).partitions), strict)
  {
    RefusedIsNotClock(w.coverage, parts, checked);
    if Updated(w.coverage, parts, checked, maxAge).error.None? {
      hide Updated, Sound, Advance, Distinct, Seen;
      var out := Updated(w.coverage, parts, checked, maxAge).partitions;
      forall p | p in out ensures Proven(w, strict, p, out[p]) {
        var i := AdvancedFrom(w.coverage, parts, checked, maxAge, p);
        assert parts[i] in parts;
        OneProven(w, strict, parts[i], Cutoff(checked, maxAge));
      }
    }
  }

  lemma OneProven(w: World, strict: bool, s: Snapshot, cutoff: int)
    requires CoverageProven(w, strict) && Sound(w, strict, s)
    requires s.partition in w.coverage ==> w.coverage[s.partition].next <= s.next
    ensures Proven(w, strict, s.partition, Advance(Of(w.coverage, s.partition), s, cutoff))
  {
    if s.partition !in w.coverage {
      FirstProven(w, strict, s, cutoff);
    } else {
      AdvanceProven(w, strict, w.coverage[s.partition], s, cutoff);
    }
  }

  lemma FirstProven(w: World, strict: bool, s: Snapshot, cutoff: int)
    requires Sound(w, strict, s)
    ensures Proven(w, strict, s.partition, Advance(NO_COVERAGE, s, cutoff))
  {
    SweptFrom(NO_COVERAGE.pending + [Fence(s.end, s.observedAt)], s.next, cutoff, 0);
    var c := Advance(NO_COVERAGE, s, cutoff);
    assert forall f :: f in c.pending ==> f == Fence(s.end, s.observedAt);
  }

  /** What poll publishes covers every partition, also one created after the listing. */
  lemma PublicationProven(w: World, strict: bool, maxAge: int)
    requires Inv(w, strict) && w.probe.Reading? && w.probe.todo == {} && w.probe.phase.Between?
    ensures var h := Published(Updated(w.coverage, w.probe.taken, Ms(w.clock), maxAge).lag, w.probe.started);
            ReportProven(w, strict, h)
  {
    var parts, checked := w.probe.taken, Ms(w.clock);
    var out := Updated(w.coverage, parts, checked, maxAge);
    var h := Published(out.lag, w.probe.started);
    if h.available {
      UpdateProven(w, strict, parts, checked, maxAge);
      forall p | p in w.logs && p in w.committed ensures SinceFrom(strict, w.logs[p], w.committed[p], h.coveredThrough) {
        if p in Seen(parts) {
          CoveredByReport(w.coverage, parts, checked, maxAge, p);
          assert Proven(w.(coverage := out.partitions), strict, p, out.partitions[p]);
        }
      }
    }
  }

  lemma CoveredByReport(c: Partitions, parts: seq<Snapshot>, checked: int, maxAge: int, p: int)
    requires Distinct(parts) && p in Seen(parts) && Updated(c, parts, checked, maxAge).error.None?
    ensures var out := Updated(c, parts, checked, maxAge);
            p in out.partitions && out.lag.coveredThrough <= out.partitions[p].covered
  {
    var cutoff := Cutoff(checked, maxAge);
    AdvancedOnce(c, parts, cutoff);
    LeastBelow(c, parts, cutoff, checked, |parts|);
    assert parts[..|parts|] == parts;
    var i :| 0 <= i < |parts| && parts[i].partition == p;
    assert AdvancedTo(c, AdvanceAll(c, parts, cutoff), parts[i], cutoff);
  }

  lemma EvaluateKeeps(w: World, strict: bool, maxAge: int)
    requires Inv(w, strict)
    ensures Inv(Next(w, Evaluate, strict, maxAge), strict)
  {
    var v := Next(w, Evaluate, strict, maxAge);
    if w.probe.Reading? && w.probe.phase.Between? && w.probe.todo == {} {
      UpdateProven(w, strict, w.probe.taken, Ms(w.clock), maxAge);
      PublicationProven(w, strict, maxAge);
      var updated := w.(coverage := v.coverage, probe := v.probe);
      assert Settled(updated, strict) && Continues(updated, v, strict) && ProbeProven(updated, strict);
      hide Updated, CoverageProven, LagProven, ReportProven;
      GrowthKeeps(updated, v, strict);
      GrowthKeepsProbe(updated, v, strict);
    }
  }

  lemma GrowthStepKeeps(w: World, step: Step, strict: bool, maxAge: int)
    requires Inv(w, strict)
    requires step.Tick? || step.CreatePartition? || step.Append? || step.Commit?
    ensures Inv(Next(w, step, strict, maxAge), strict)
  {
    var v := Next(w, step, strict, maxAge);
    hide CoverageProven, LagProven, ProbeProven;
    assert Continues(w, v, strict);
    GrowthKeeps(w, v, strict);
    GrowthKeepsProbe(w, v, strict);
  }

  lemma StepKeeps(w: World, step: Step, strict: bool, maxAge: int)
    requires Inv(w, strict)
    ensures Inv(Next(w, step, strict, maxAge), strict)
  {
    if step.Tick? || step.CreatePartition? || step.Append? || step.Commit? {
      GrowthStepKeeps(w, step, strict, maxAge);
    } else if step.Evaluate? {
      EvaluateKeeps(w, strict, maxAge);
    } else if step.ReadEnd? {
      ReadEndKeeps(w, strict, maxAge);
    } else if step.Fail? || step.Publish? || step.Restart? {
    } else {
      ProbeStepKeeps(w, step, strict, maxAge);
    }
  }

  lemma {:induction false} RunKeeps(steps: seq<Step>, strict: bool, maxAge: int)
    ensures Inv(Run(steps, strict, maxAge), strict)
  {
    if steps != [] {
      RunKeeps(steps[..|steps| - 1], strict, maxAge);
      StepKeeps(Run(steps[..|steps| - 1], strict, maxAge), steps[|steps| - 1], strict, maxAge);
    }
  }

  // ---- A later clock ----

  /** What w becomes: its logs only grow, by records appended after it. */
  ghost predicate Later(w: World, v: World, strict: bool) {
    && w.lastRead <= w.clock <= v.clock && w.lastRead <= v.lastRead <= v.clock
    && (forall p :: p in w.logs ==> p in v.logs && |w.logs[p]| <= |v.logs[p]|)
    && forall p, i {:trigger v.logs[p][i]} :: p in v.logs && 0 <= i < |v.logs[p]| ==>
         if p in w.logs && i < |w.logs[p]| then v.logs[p][i] == w.logs[p][i]
         else w.clock <= v.logs[p][i] && (strict ==> w.lastRead < v.logs[p][i])
  }

  lemma StepLater(w: World, v: World, step: Step, strict: bool, maxAge: int)
    requires Later(w, v, strict)
    ensures Later(w, Next(v, step, strict, maxAge), strict)
  {
    hide Updated, Published, Ms;
  }

  lemma AtOnce(w: World, strict: bool)
    requires Inv(w, strict)
    ensures Later(w, w, strict)
  {
    hide CoverageProven, LagProven, ProbeProven;
  }

  lemma {:induction false} RunLater(steps: seq<Step>, more: seq<Step>, strict: bool, maxAge: int)
    ensures Later(Run(steps, strict, maxAge), Run(steps + more, strict, maxAge), strict)
  {
    hide *;
    if more == [] {
      assert steps + more == steps;
      RunKeeps(steps, strict, maxAge);
      AtOnce(Run(steps, strict, maxAge), strict);
    } else {
      var front := more[..|more| - 1];
      RunLater(steps, front, strict, maxAge);
      assert steps + more == steps + front + [more[|more| - 1]];
      RunSnoc(steps + front, more[|more| - 1], strict, maxAge);
      StepLater(Run(steps, strict, maxAge), Run(steps + front, strict, maxAge), more[|more| - 1], strict, maxAge);
    }
  }

  // ---- The theorem ----

  /**
   * The report read in w is fresh by the clock read in v, and the record is one of v's:
   * the webhook reads the clock after its snapshot, and other steps may come between.
   */
  predicate FreshWith(w: World, v: World, maxAge: int, p: int, i: int) {
    Reason(w.published, Ms(v.clock), maxAge).Fresh? && p in v.logs && 0 <= i < |v.logs[p]|
  }

  predicate Ingested(w: World, p: int, i: int) {
    p in w.committed && i < w.committed[p]
  }

  /** A record appended by the covered instant has been ingested. */
  predicate CoveredIngested(w: World, v: World, maxAge: int, p: int, i: int) {
    FreshWith(w, v, maxAge, p, i) && v.logs[p][i] <= w.published.coveredThrough * MILLISECOND ==> Ingested(w, p, i)
  }

  /** A record at least maxAge old has been ingested. */
  predicate AgedIngested(w: World, v: World, maxAge: int, p: int, i: int) {
    FreshWith(w, v, maxAge, p, i) && v.logs[p][i] + maxAge <= v.clock ==> Ingested(w, p, i)
  }

  /** What an answer that is fresh at `now` proves of the state it was read in. */
  lemma FreshState(w: World, v: World, strict: bool, now: int, maxAge: int, p: int, i: int)
    requires Inv(w, strict) && Later(w, v, strict) && Reason(w.published, now, maxAge).Fresh? && p in v.logs && 0 <= i < |v.logs[p]|
    ensures var appended := v.logs[p][i];
            var covered := w.published.coveredThrough * MILLISECOND;
            && (appended < covered || (strict && appended == covered) ==> Ingested(w, p, i))
            && (appended + maxAge <= now * MILLISECOND ==> Ingested(w, p, i))
  {
    hide CoverageProven, ProbeProven;
    if p in w.logs {
      assert SinceFrom(strict, w.logs[p], w.committed[p], w.published.coveredThrough);
    }
  }

  /**
   * Whenever the webhook finds the lag fresh, every record appended before the
   * covered instant had been ingested in the snapshot it read, and so had every record
   * that is maxAge old at the millisecond it reads afterwards.
   */
  lemma FreshMeansIngested(steps: seq<Step>, more: seq<Step>, strict: bool, maxAge: int, p: int, i: int)
    requires FreshWith(Run(steps, strict, maxAge), Run(steps + more, strict, maxAge), maxAge, p, i)
    ensures var w, v := Run(steps, strict, maxAge), Run(steps + more, strict, maxAge);
            var appended := v.logs[p][i];
            var covered := w.published.coveredThrough * MILLISECOND;
            && (appended < covered || (strict && appended == covered) ==> Ingested(w, p, i))
            && (appended + maxAge <= Ms(v.clock) * MILLISECOND ==> Ingested(w, p, i))
  {
    RunKeeps(steps, strict, maxAge);
    RunLater(steps, more, strict, maxAge);
    hide Run, Inv, Later;
    var v := Run(steps + more, strict, maxAge);
    FreshState(Run(steps, strict, maxAge), v, strict, Ms(v.clock), maxAge, p, i);
  }

  /** The covered instant itself belongs to the proof exactly when appends read the clock after the monitor. */
  lemma CoveredIngestedIff(strict: bool, maxAge: int)
    requires maxAge >= MIN_KAFKA_LAG
    ensures (forall steps, more, p, i :: CoveredIngested(Run(steps, strict, maxAge), Run(steps + more, strict, maxAge), maxAge, p, i)) <==> strict
  {
    hide Run;
    if strict {
      forall steps, more, p, i ensures CoveredIngested(Run(steps, strict, maxAge), Run(steps + more, strict, maxAge), maxAge, p, i) {
        if FreshWith(Run(steps, strict, maxAge), Run(steps + more, strict, maxAge), maxAge, p, i) {
          FreshMeansIngested(steps, more, strict, maxAge, p, i);
        }
      }
    } else {
      LateAppendRuns(0, strict, maxAge);
      assert LateAppend(0) + [] == LateAppend(0);
      assert !CoveredIngested(Run(LateAppend(0), strict, maxAge), Run(LateAppend(0) + [], strict, maxAge), maxAge, 0, 0);
    }
  }

  /** When the exact clock may be used for the age: the maximum age leaves no room inside a millisecond. */
  predicate ExactAge(strict: bool, maxAge: int) {
    maxAge % MILLISECOND == 0 || (strict && maxAge % MILLISECOND == MILLISECOND - 1)
  }

  lemma ExactAgeSuffices(steps: seq<Step>, more: seq<Step>, strict: bool, maxAge: int, p: int, i: int)
    requires ExactAge(strict, maxAge) && FreshWith(Run(steps, strict, maxAge), Run(steps + more, strict, maxAge), maxAge, p, i)
    ensures AgedIngested(Run(steps, strict, maxAge), Run(steps + more, strict, maxAge), maxAge, p, i)
  {
    FreshMeansIngested(steps, more, strict, maxAge, p, i);
    hide Run;
    var w, v := Run(steps, strict, maxAge), Run(steps + more, strict, maxAge);
    if v.logs[p][i] + maxAge <= v.clock { WithinCovered(v.clock, v.logs[p][i], w.published.coveredThrough, maxAge); }
  }

  lemma WithinCovered(clock: int, appended: int, covered: int, maxAge: int)
    requires (Ms(clock) - covered) * MILLISECOND < maxAge && appended + maxAge <= clock
    ensures maxAge % MILLISECOND == 0 ==> appended < covered * MILLISECOND
    ensures maxAge % MILLISECOND == MILLISECOND - 1 ==> appended <= covered * MILLISECOND
  {
  }

  /** A record maxAge old by the exact clock is ingested in every run exactly for these ages. */
  lemma AgedIngestedIff(strict: bool, maxAge: int)
    requires maxAge >= MIN_KAFKA_LAG
    ensures (forall steps, more, p, i :: AgedIngested(Run(steps, strict, maxAge), Run(steps + more, strict, maxAge), maxAge, p, i)) <==>
            ExactAge(strict, maxAge)
  {
    hide Run, ExactAge;
    if ExactAge(strict, maxAge) {
      forall steps, more, p, i ensures AgedIngested(Run(steps, strict, maxAge), Run(steps + more, strict, maxAge), maxAge, p, i) {
        if FreshWith(Run(steps, strict, maxAge), Run(steps + more, strict, maxAge), maxAge, p, i) {
          ExactAgeSuffices(steps, more, strict, maxAge, p, i);
        }
      }
    } else {
      var steps := MissedWhenInexact(strict, maxAge);
      assert steps + [] == steps;
      assert !AgedIngested(Run(steps, strict, maxAge), Run(steps + [], strict, maxAge), maxAge, 0, 0);
    }
  }

  /** The failing run: a record slips in after the covered instant, and the clock reaches the end of the last fresh millisecond. */
  function AgedAppend(delay: int, maxAge: int): seq<Step> {
    LateAppend(delay) + [Tick(maxAge / MILLISECOND * MILLISECOND + MILLISECOND - 1 - delay)]
  }

  lemma MissedWhenInexact(strict: bool, maxAge: int) returns (steps: seq<Step>)
    requires maxAge >= MIN_KAFKA_LAG && !ExactAge(strict, maxAge)
    ensures !AgedIngested(Run(steps, strict, maxAge), Run(steps, strict, maxAge), maxAge, 0, 0)
  {
    var delay := if strict then 1 else 0;
    LateAppendRuns(delay, strict, maxAge);
    RunSnoc(LateAppend(delay), Tick(maxAge / MILLISECOND * MILLISECOND + MILLISECOND - 1 - delay), strict, maxAge);
    hide Run;
    steps := AgedAppend(delay, maxAge);
    var w := Run(steps, strict, maxAge);
    LastFreshMillisecond(maxAge);
    assert w.clock == TWO_SECONDS + maxAge / MILLISECOND * MILLISECOND + MILLISECOND - 1;
    assert !AgedIngested(w, w, maxAge, 0, 0);
  }

  lemma LastFreshMillisecond(maxAge: int)
    requires maxAge >= MIN_KAFKA_LAG
    ensures var whole := maxAge / MILLISECOND;
            Ms(TWO_SECONDS + whole * MILLISECOND + MILLISECOND - 1) == 2000 + whole &&
            whole * MILLISECOND + maxAge % MILLISECOND == maxAge
  {
  }

  // ---- A record that slips in ----

  const TWO_SECONDS: int := 2_000_000_000
  const LISTED: seq<Step> := [Tick(TWO_SECONDS), CreatePartition(0), Begin, ListPartitions]

  /** Creates one empty partition, probes it at second two, and lets a record slip in before the update. */
  function LateAppend(delay: int): seq<Step> {
    LISTED + [Observe(0)] + [ReadCheckpoint] + [ReadEnd] + [Tick(delay)] + [Append(0)] + [Evaluate] + [Publish(true)]
  }

  lemma RunSnoc(steps: seq<Step>, step: Step, strict: bool, maxAge: int)
    ensures Run(steps + [step], strict, maxAge) == Next(Run(steps, strict, maxAge), step, strict, maxAge)
  {
    assert (steps + [step])[..|steps|] == steps;
  }

  ghost function Probing(phase: Phase, todo: set<int>, taken: seq<Snapshot>): World {
    World(TWO_SECONDS, TWO_SECONDS, map[0 := []], map[0 := 0], map[], Reading(2000, todo, phase, taken), Lag(0, 0, false))
  }

  lemma ListingRuns(strict: bool, maxAge: int)
    ensures Run(LISTED, strict, maxAge) == Probing(Between, {0}, [])
  {
    var s1, s2 := [Tick(TWO_SECONDS)], [Tick(TWO_SECONDS), CreatePartition(0)];
    RunSnoc([], Tick(TWO_SECONDS), strict, maxAge);
    assert [] + [Tick(TWO_SECONDS)] == s1;
    RunSnoc(s1, CreatePartition(0), strict, maxAge);
    assert s1 + [CreatePartition(0)] == s2;
    RunSnoc(s2, Begin, strict, maxAge);
    RunSnoc(s2 + [Begin], ListPartitions, strict, maxAge);
    assert s2 + [Begin] + [ListPartitions] == LISTED;
    var logs: map<int, seq<int>> := map[0 := []];
    assert logs.Keys == {0};
  }

  /** Seven steps that take one sound snapshot of one empty partition. */
  lemma ProbeRuns(strict: bool, maxAge: int)
    ensures Run(LISTED + [Observe(0)] + [ReadCheckpoint] + [ReadEnd], strict, maxAge) ==
            Probing(Between, {}, [Snapshot(0, 0, 0, 2000)])
  {
    ListingRuns(strict, maxAge);
    RunSnoc(LISTED, Observe(0), strict, maxAge);
    RunSnoc(LISTED + [Observe(0)], ReadCheckpoint, strict, maxAge);
    RunSnoc(LISTED + [Observe(0)] + [ReadCheckpoint], ReadEnd, strict, maxAge);
    assert {0} - {0} == {};
    assert [] + [Snapshot(0, 0, 0, 2000)] == [Snapshot(0, 0, 0, 2000)];
  }

  /** The update over that snapshot covers the whole observation. */
  lemma ProbedUpdate(maxAge: int)
    ensures Updated(map[], [Snapshot(0, 0, 0, 2000)], 2000, maxAge).lag == Lag(2000, 2000, true)
  {
    var p := Snapshot(0, 0, 0, 2000);
    var cutoff := Cutoff(2000, maxAge);
    assert [p][..0] == [] && [p][1..] == [];
    var f := Fence(0, 2000);
    assert NO_COVERAGE.pending + [f] == [f] && [f][1..] == [];
    assert Sweep([f], 0, cutoff, 0) == Sweep([], 0, cutoff, 2000);
    assert Advance(Of(map[], 0), p, cutoff).covered == 2000;
    var advanced := AdvanceAll(map[], [p], cutoff);
    assert AdvanceAll(map[], [p][..0], cutoff) == map[];
    assert advanced == map[0 := Advance(NO_COVERAGE, p, cutoff)];
    assert Least(map[], [p][..0], cutoff, 2000) == 2000;
  }

  /** The world after the probe, with one record appended `delay` later. */
  ghost function SlippedIn(delay: int): World {
    Probing(Between, {}, [Snapshot(0, 0, 0, 2000)]).(clock := TWO_SECONDS + delay, logs := map[0 := [TWO_SECONDS + delay]])
  }

  lemma AppendRuns(delay: int, strict: bool, maxAge: int)
    requires 0 <= delay && (strict ==> delay > 0)
    ensures Run(LISTED + [Observe(0)] + [ReadCheckpoint] + [ReadEnd] + [Tick(delay)] + [Append(0)], strict, maxAge) == SlippedIn(delay)
  {
    ProbeRuns(strict, maxAge);
    hide Run;
    var s := LISTED + [Observe(0)] + [ReadCheckpoint] + [ReadEnd];
    RunSnoc(s, Tick(delay), strict, maxAge);
    RunSnoc(s + [Tick(delay)], Append(0), strict, maxAge);
    assert [] + [TWO_SECONDS + delay] == [TWO_SECONDS + delay];
  }

  lemma LateAppendRuns(delay: int, strict: bool, maxAge: int)
    requires 0 <= delay < MILLISECOND && (strict ==> delay > 0)
    ensures var w := Run(LateAppend(delay), strict, maxAge);
            w.published == Lag(2000, 2000, true) && w.clock == TWO_SECONDS + delay &&
            w.logs == map[0 := [w.clock]] && w.committed == map[0 := 0]
  {
    hide *;
    AppendRuns(delay, strict, maxAge);
    EvaluatedAndPublished(delay, strict, maxAge);
    var s := LISTED + [Observe(0)] + [ReadCheckpoint] + [ReadEnd] + [Tick(delay)] + [Append(0)];
    RunSnoc(s, Evaluate, strict, maxAge);
    RunSnoc(s + [Evaluate], Publish(true), strict, maxAge);
    assert LateAppend(delay) == s + [Evaluate] + [Publish(true)] by { LateAppendIs(delay); }
  }

  lemma LateAppendIs(delay: int)
    ensures LateAppend(delay) == LISTED + [Observe(0)] + [ReadCheckpoint] + [ReadEnd] + [Tick(delay)] + [Append(0)] + [Evaluate] + [Publish(true)]
  {
    hide LISTED;
  }

  lemma EvaluatedAndPublished(delay: int, strict: bool, maxAge: int)
    requires 0 <= delay < MILLISECOND
    ensures var w := Next(Next(SlippedIn(delay), Evaluate, strict, maxAge), Publish(true), strict, maxAge);
            w.published == Lag(2000, 2000, true) && w.clock == TWO_SECONDS + delay &&
            w.logs == map[0 := [w.clock]] && w.committed == map[0 := 0]
  {
    ProbedUpdate(maxAge);
    SameMillisecond(delay);
    hide Updated, Ms;
  }

  lemma SameMillisecond(delay: int)
    requires 0 <= delay < MILLISECOND
    ensures Ms(TWO_SECONDS + delay) == 2000
  {
  }
}

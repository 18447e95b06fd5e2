/**
 * Consumer lag coverage: lagCoverage.update and poll in internal/kafka/listener.go,
 * KafkaLag.reason in internal/store/auth.go. Instants are milliseconds; the maximum
 * age is a duration in nanoseconds, as in the source.
 */
module KafkaLag {
  import opened Results

  const MILLISECOND: int := 1_000_000
  const MIN_KAFKA_LAG: int := 1_000_000_000

  // ---- The published proof and its reader ----

  datatype Lag = Lag(checkedAt: int, coveredThrough: int, available: bool)

  datatype Freshness = Fresh | Unavailable | Exceeded

  function Reason(h: Lag, now: int, maxAge: int): Freshness {
    if maxAge < MIN_KAFKA_LAG || !h.available || h.checkedAt <= 0 || h.coveredThrough <= 0 ||
       h.checkedAt > now || h.coveredThrough > h.checkedAt then Unavailable
    else if (now - h.checkedAt) * MILLISECOND >= maxAge then Unavailable
    else if (now - h.coveredThrough) * MILLISECOND >= maxAge then Exceeded
    else Fresh
  }

  // ---- Coverage of one partition ----

  /** The broker's log ended at `end` after the instant `at`: every record from `end` on was appended since. */
  datatype Fence = Fence(end: int, at: int)

  datatype Coverage = Coverage(next: int, end: int, observed: int, covered: int, pending: seq<Fence>)

  datatype Snapshot = Snapshot(partition: int, end: int, next: int, observedAt: int)

  datatype LagError = InvalidObservation | OffsetsBackwards | PartitionDisappeared | ClockBackwards

  const NO_COVERAGE := Coverage(0, 0, 0, 0, [])

  /** What remains of the pending fences, and the coverage they prove, for a checkpoint `next`. */
  function Sweep(pending: seq<Fence>, next: int, cutoff: int, covered: int): (int, seq<Fence>) {
    if pending == [] then (covered, [])
    else if pending[0].end <= next then Sweep(pending[1..], next, cutoff, pending[0].at)
    else if pending[0].at > cutoff then (covered, pending)
    else Sweep(pending[1..], next, cutoff, covered)
  }

  function Advance(prev: Coverage, p: Snapshot, cutoff: int): Coverage {
    var (covered, pending) := Sweep(prev.pending + [Fence(p.end, p.observedAt)], p.next, cutoff, prev.covered);
    Coverage(p.next, p.end, p.observedAt, covered, pending)
  }

  // ---- One update over all partitions ----

  type Partitions = map<int, Coverage>

  function Of(c: Partitions, p: int): Coverage {
    if p in c then c[p] else NO_COVERAGE
  }

  /** The first snapshot the update refuses, in order. */
  function Refused(c: Partitions, parts: seq<Snapshot>, checked: int): Option<LagError> {
    if parts == [] then None
    else if parts[0].observedAt <= 0 || parts[0].observedAt > checked then Some(InvalidObservation)
    else if parts[0].partition in c &&
            (parts[0].next < c[parts[0].partition].next || parts[0].end < c[parts[0].partition].end) then
      Some(OffsetsBackwards)
    else Refused(c, parts[1..], checked)
  }

  function Seen(parts: seq<Snapshot>): set<int> {
    set i | 0 <= i < |parts| :: parts[i].partition
  }

  predicate ClockRegressed(c: Partitions, parts: seq<Snapshot>) {
    exists i :: 0 <= i < |parts| && parts[i].partition in c && parts[i].observedAt < c[parts[i].partition].observed
  }

  function Forget(c: Partitions): Partitions {
    map p | p in c :: c[p].(observed := 0, covered := 0, pending := [])
  }

  function AdvanceAll(c: Partitions, parts: seq<Snapshot>, cutoff: int): Partitions {
    if parts == [] then c else
      var p := parts[|parts| - 1];
      var before := AdvanceAll(c, parts[..|parts| - 1], cutoff);
      before[p.partition := Advance(Of(before, p.partition), p, cutoff)]
  }

  function Least(c: Partitions, parts: seq<Snapshot>, cutoff: int, checked: int): int {
    if parts == [] then checked else
      var before := Least(c, parts[..|parts| - 1], cutoff, checked);
      var covered := Of(AdvanceAll(c, parts, cutoff), parts[|parts| - 1].partition).covered;
      if covered < before then covered else before
  }

  function Cutoff(checked: int, maxAge: int): int {
    checked - maxAge / MILLISECOND
  }

  datatype Outcome = Outcome(partitions: Partitions, lag: Lag, error: Option<LagError>)

  /** lagCoverage.update as a function of its state and arguments. */
  function Updated(c: Partitions, parts: seq<Snapshot>, checked: int, maxAge: int): Outcome {
    var none := Lag(checked, 0, false);
    if Refused(c, parts, checked).Some? then Outcome(c, none, Refused(c, parts, checked))
    else if !(c.Keys <= Seen(parts)) then Outcome(c, none, Some(PartitionDisappeared))
    else if ClockRegressed(c, parts) then Outcome(Forget(c), none, Some(ClockBackwards))
    else
      var least := Least(c, parts, Cutoff(checked, maxAge), checked);
      Outcome(AdvanceAll(c, parts, Cutoff(checked, maxAge)), Lag(checked, least, least > 0), None)
  }

  /** poll's publication: the proof expires from the start of the probe. */
  function Published(h: Lag, started: int): Lag {
    Lag(started, if h.coveredThrough < started then h.coveredThrough else started, h.available)
  }

  /** The mutable coverage of a monitor. */
  class LagCoverage {
    var partitions: Partitions
    const maxAge: int

    constructor (maxAge: int)
      requires maxAge >= MIN_KAFKA_LAG
      ensures partitions == map[] && this.maxAge == maxAge
    {
      partitions := map[];
      this.maxAge := maxAge;
    }

    /** The checks update makes before it changes anything. */
    method Check(parts: seq<Snapshot>, checked: int) returns (error: Option<LagError>)
      ensures error == if Refused(partitions, parts, checked).Some? then Refused(partitions, parts, checked)
                       else if !(partitions.Keys <= Seen(parts)) then Some(PartitionDisappeared)
                       else if ClockRegressed(partitions, parts) then Some(ClockBackwards)
                       else None
    {
      var seen: set<int> := {};
      var clockRegressed := false;
      var i := 0;
      while i < |parts|
        invariant 0 <= i <= |parts|
        invariant Refused(partitions, parts, checked) == Refused(partitions, parts[i..], checked)
        invariant seen == Seen(parts[..i])
        invariant clockRegressed <==> ClockRegressed(partitions, parts[..i])
      {
        var p := parts[i];
        assert parts[i..][1..] == parts[i + 1..];
        assert parts[..i + 1] == parts[..i] + [p];
        if p.observedAt <= 0 || p.observedAt > checked {
          return Some(InvalidObservation);
        }
        seen := seen + {p.partition};
        SeenMore(parts[..i], p);
        RegressedMore(partitions, parts[..i], p);
        if p.partition in partitions {
          var prev := partitions[p.partition];
          if p.next < prev.next || p.end < prev.end {
            return Some(OffsetsBackwards);
          }
          clockRegressed := clockRegressed || p.observedAt < prev.observed;
        }
        i := i + 1;
      }
      assert parts[..|parts|] == parts;
      if !(partitions.Keys <= seen) {
        return Some(PartitionDisappeared);
      }
      return if clockRegressed then Some(ClockBackwards) else None;
    }

    /** Crosses and prunes the pending fences of one partition. */
    method Consume(pending: seq<Fence>, next: int, cutoff: int, before: int) returns (covered: int, rest: seq<Fence>)
      ensures (covered, rest) == Sweep(pending, next, cutoff, before)
    {
      covered := before;
      var consumed := 0;
      while consumed < |pending|
        invariant 0 <= consumed <= |pending|
        invariant Sweep(pending, next, cutoff, before) == Sweep(pending[consumed..], next, cutoff, covered)
      {
        var fence := pending[consumed];
        assert pending[consumed..][1..] == pending[consumed + 1..];
        if fence.end <= next {
          covered := fence.at;
        } else if fence.at > cutoff {
          break;
        }
        consumed := consumed + 1;
      }
      rest := pending[consumed..];
    }

    method Update(parts: seq<Snapshot>, checked: int) returns (h: Lag, error: Option<LagError>)
      modifies this
      ensures Outcome(partitions, h, error) == Updated(old(partitions), parts, checked, maxAge)
    {
      hide Sweep, Refused, Seen;
      h := Lag(checked, 0, false);
      error := Check(parts, checked);
      RefusedIsNotClock(partitions, parts, checked);
      if error == Some(ClockBackwards) {
        partitions := map p | p in partitions :: partitions[p].(observed := 0, covered := 0, pending := []);
      }
      if error.Some? {
        return;
      }
      var least := checked;
      var cutoff := checked - maxAge / MILLISECOND;
      var i := 0;
      while i < |parts|
        invariant 0 <= i <= |parts|
        invariant partitions == AdvanceAll(old(partitions), parts[..i], cutoff)
        invariant least == Least(old(partitions), parts[..i], cutoff, checked)
      {
        var p := parts[i];
        var prev := if p.partition in partitions then partitions[p.partition] else NO_COVERAGE;
        var covered, rest := Consume(prev.pending + [Fence(p.end, p.observedAt)], p.next, cutoff, prev.covered);
        assert parts[..i + 1][..i] == parts[..i];
        partitions := partitions[p.partition := Coverage(p.next, p.end, p.observedAt, covered, rest)];
        least := if covered < least then covered else least;
        i := i + 1;
      }
      assert parts[..|parts|] == parts;
      h := Lag(checked, least, least > 0);
    }
  }

  lemma {:induction false} RefusedIsNotClock(c: Partitions, parts: seq<Snapshot>, checked: int)
    ensures Refused(c, parts, checked) != Some(ClockBackwards) && Refused(c, parts, checked) != Some(PartitionDisappeared)
  {
    if parts != [] { RefusedIsNotClock(c, parts[1..], checked); }
  }

  lemma SeenMore(parts: seq<Snapshot>, p: Snapshot)
    ensures Seen(parts + [p]) == Seen(parts) + {p.partition}
  {
    var more := parts + [p];
    assert more[|parts|] == p;
    forall x | x in Seen(parts) + {p.partition} ensures x in Seen(more) {
      if x in Seen(parts) {
        var i :| 0 <= i < |parts| && parts[i].partition == x;
        assert more[i].partition == x;
      }
    }
  }

  lemma RegressedMore(c: Partitions, parts: seq<Snapshot>, p: Snapshot)
    ensures ClockRegressed(c, parts + [p]) <==>
            ClockRegressed(c, parts) || (p.partition in c && p.observedAt < c[p.partition].observed)
  {
    var more := parts + [p];
    assert more[|parts|] == p;
    if ClockRegressed(c, parts) {
      var i :| 0 <= i < |parts| && parts[i].partition in c && parts[i].observedAt < c[parts[i].partition].observed;
      assert more[i] == parts[i];
    }
  }
}

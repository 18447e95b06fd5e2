/**
 * What the lag monitor grants (internal/kafka/listener.go:296-404 and
 * internal/store/auth.go:245-257): which updates are accepted, and that a consumer that
 * keeps up with a fence younger than the maximum age is answered fresh.
 */
module LagReports {
  import opened Results
  import opened KafkaLag
  import opened LagWindow

  // ---- Which updates are accepted ----

  /** The instant lies between one and now, and offsets have not gone back since the last update. */
  predicate Plausible(c: Partitions, p: Snapshot, checked: int) {
    0 < p.observedAt <= checked && (p.partition in c ==> c[p.partition].next <= p.next && c[p.partition].end <= p.end)
  }

  /** No partition that was known is missing. */
  predicate NoneMissing(c: Partitions, parts: seq<Snapshot>) {
    forall n :: n in c ==> exists i :: 0 <= i < |parts| && parts[i].partition == n
  }

  /** No partition is observed earlier than last time. */
  predicate InTime(c: Partitions, parts: seq<Snapshot>) {
    forall i :: 0 <= i < |parts| && parts[i].partition in c ==> c[parts[i].partition].observed <= parts[i].observedAt
  }

  predicate AllPlausible(c: Partitions, parts: seq<Snapshot>, checked: int) {
    forall i :: 0 <= i < |parts| ==> Plausible(c, parts[i], checked)
  }

  lemma PlausibleHead(c: Partitions, parts: seq<Snapshot>, checked: int)
    requires parts != []
    ensures AllPlausible(c, parts, checked) <==> Plausible(c, parts[0], checked) && AllPlausible(c, parts[1..], checked)
  {
    hide Plausible;
    assert parts == [parts[0]] + parts[1..];
  }

  lemma {:induction false} RefusedMeans(c: Partitions, parts: seq<Snapshot>, checked: int)
    ensures Refused(c, parts, checked).None? <==> AllPlausible(c, parts, checked)
  {
    if parts != [] {
      RefusedMeans(c, parts[1..], checked);
      PlausibleHead(c, parts, checked);
      hide AllPlausible;
    }
  }

  lemma MissingMeans(c: Partitions, parts: seq<Snapshot>)
    ensures c.Keys <= Seen(parts) <==> NoneMissing(c, parts)
  {
    forall n ensures n in Seen(parts) <==> exists i :: 0 <= i < |parts| && parts[i].partition == n { }
    if NoneMissing(c, parts) {
      forall n | n in c.Keys ensures n in Seen(parts) { assert n in c; }
    } else {
      var n :| n in c && !(exists i :: 0 <= i < |parts| && parts[i].partition == n);
      assert n in c.Keys && n !in Seen(parts);
    }
  }

  /**
   * An update succeeds exactly on plausible snapshots of every known partition in time. A
   * clock that ran backwards makes it forget its proofs but not its offsets; any other
   * fault changes nothing, and every fault reports the lag as unavailable.
   */
  lemma UpdateIff(c: Partitions, parts: seq<Snapshot>, checked: int, maxAge: int)
    ensures var out := Updated(c, parts, checked, maxAge);
            var plausible := AllPlausible(c, parts, checked);
            && (out.error.None? <==> plausible && NoneMissing(c, parts) && InTime(c, parts))
            && (out.error.Some? ==> out.lag == Lag(checked, 0, false))
            && (out.error == Some(PartitionDisappeared) <==> plausible && !NoneMissing(c, parts))
            && (out.error == Some(ClockBackwards) <==> plausible && NoneMissing(c, parts) && !InTime(c, parts))
            && (out.error == Some(ClockBackwards) ==>
                  out.partitions.Keys == c.Keys && forall p :: p in c ==> out.partitions[p] == Coverage(c[p].next, c[p].end, 0, 0, []))
            && (out.error.Some? && out.error != Some(ClockBackwards) ==> out.partitions == c)
  {
    RefusedMeans(c, parts, checked);
    RefusedIsNotClock(c, parts, checked);
    MissingMeans(c, parts);
    hide Refused, Seen, AdvanceAll, Least, AllPlausible, NoneMissing;
  }

  // ---- What the webhook makes of a report ----

  /** A report that can be relied on at all: it says covered, and its check is not in the future and younger than maxAge. */
  predicate Checked(h: Lag, now: int, maxAge: int) {
    && maxAge >= 1_000_000_000 && h.available && 0 < h.coveredThrough <= h.checkedAt <= now
    && (now - h.checkedAt) * 1_000_000 < maxAge
  }

  /** A checked report is fresh while what it covers is younger than maxAge, and exceeded after that; any other is unavailable. */
  lemma ReasonIff(h: Lag, now: int, maxAge: int)
    ensures Reason(h, now, maxAge) ==
            if !Checked(h, now, maxAge) then Unavailable
            else if (now - h.coveredThrough) * 1_000_000 < maxAge then Fresh else Exceeded
  {
  }

  // ---- What a report is good for ----

  /** The checkpoint has passed a fence no older than t that was seen since the last reset. */
  ghost predicate Passed(seen: Shadow, p: Snapshot, t: int) {
    exists f :: f in All(seen, p.partition) && f.end <= p.next && f.at >= t
  }

  lemma {:induction false} FullAtLeast(seen: Shadow, parts: seq<Snapshot>, checked: int, t: int)
    requires t <= checked && forall i :: 0 <= i < |parts| ==> Passed(seen, parts[i], t)
    ensures FullReport(seen, parts, checked) >= t
  {
    if parts != [] {
      FullAtLeast(seen, parts[..|parts| - 1], checked, t);
      assert Passed(seen, parts[|parts| - 1], t);
    }
  }

  /** When every partition has passed a fence younger than maxAge, the report reaches it. */
  lemma YoungFenceReported(calls: seq<Call>, call: Call, maxAge: int, t: int)
    requires Ordered(calls + [call])
    requires Updated(After(calls, maxAge).coverage, call.parts, call.checked, maxAge).error.None?
    requires call.checked - maxAge / 1_000_000 < t <= call.checked
    requires forall i :: 0 <= i < |call.parts| ==> Passed(Extended(After(calls, maxAge).shadow, call.parts), call.parts[i], t)
    ensures var h := Updated(After(calls, maxAge).coverage, call.parts, call.checked, maxAge).lag;
            t <= h.coveredThrough && (t > 0 ==> h.available)
  {
    WindowLosesNothing(calls, call, maxAge);
    hide After, Passed;
    FullAtLeast(Extended(After(calls, maxAge).shadow, call.parts), call.parts, call.checked, t);
  }

  /**
   * Such a report, published for a probe that started at `started`, keeps the webhook open
   * until the probe or what it covers is maxAge old.
   */
  lemma KeepingUpIsFresh(calls: seq<Call>, call: Call, maxAge: int, t: int, started: int, now: int)
    requires Ordered(calls + [call])
    requires Updated(After(calls, maxAge).coverage, call.parts, call.checked, maxAge).error.None?
    requires call.checked - maxAge / 1_000_000 < t <= call.checked
    requires forall i :: 0 <= i < |call.parts| ==> Passed(Extended(After(calls, maxAge).shadow, call.parts), call.parts[i], t)
    requires 0 < t <= started <= now && maxAge >= 1_000_000_000
    ensures var h := Updated(After(calls, maxAge).coverage, call.parts, call.checked, maxAge).lag;
            (now - t) * 1_000_000 < maxAge ==> Reason(Published(h, started), now, maxAge) == Fresh
  {
    YoungFenceReported(calls, call, maxAge, t);
    hide Updated, After, Passed, Extended;
  }
}

/**
 * The listener as it runs (internal/chain/listener.go): its loops over stored blocks and
 * fetched headers, writing through the store, proved against the step they specify.
 */
module ListenerState {
  import opened Results
  import opened Blocks
  import opened History
  import opened LogOrder
  import L = Listener
  import opened StoreState
  import E = EscrowStore
  import R = Redemptions

  class ChainListener {
    const config: L.Config
    const store: Store

    constructor (config: L.Config, store: Store)
      ensures this.config == config && this.store == store
    {
      this.config, this.store := config, store;
    }

    /** Walks down from the stored tip to the first retained block that is still canonical. */
    method FindAncestor(v: L.View, from: int) returns (found: Result<int, L.StepError>)
      ensures found == L.FindAncestor(v, E.ChainOf(store.View(), config.stream).blocks, from, from - config.lookback)
    {
      var blocks := E.ChainOf(store.View(), config.stream).blocks;
      var n := from;
      while n >= 0 && from - n <= config.lookback
        invariant L.FindAncestor(v, blocks, n, from - config.lookback) == L.FindAncestor(v, blocks, from, from - config.lookback)
        decreases n
      {
        if n in blocks {
          var h := L.Header(v, n);
          if h.None? {
            return Err(L.RpcError);
          }
          if h.value == blocks[n] {
            return Ok(n);
          }
        }
        n := n - 1;
      }
      return Err(L.ReorgTooDeep);
    }

    /** Reads every header of the batch, then checks the parent links. */
    method Fetch(v: L.View, prev: Hash, next: int, end: int) returns (r: Result<seq<Hash>, L.StepError>)
      requires next <= end
      ensures r == L.Fetch(v, prev, next, end)
    {
      var fetched: seq<Hash> := [];
      while |fetched| < end - next + 1
        invariant |fetched| <= end - next + 1
        invariant forall i :: 0 <= i < |fetched| ==> L.Header(v, next + i) == Some(fetched[i])
      {
        var h := L.Header(v, next + |fetched|);
        if h.None? {
          return Err(L.RpcError);
        }
        fetched := fetched + [h.value];
      }
      AllAnswered(v, fetched, next, end);
      var above, i := prev, 0;
      Nothing(L.Chained(v, prev, next, end));
      while i < |fetched|
        invariant 0 <= i <= |fetched|
        invariant Behind(L.Chained(v, prev, next, end), fetched[..i], L.Chained(v, above, next + i, end))
      {
        if above != NoHash && fetched[i].parent != above {
          return Err(L.Canonicality);
        }
        assert fetched[..i + 1] == fetched[..i] + [fetched[i]];
        OneMoreHeader(v, above, fetched[..i], L.Chained(v, prev, next, end), next + i, end);
        above := fetched[i];
        i := i + 1;
      }
      assert fetched[..i] == fetched && fetched + [] == fetched;
      return Ok(fetched);
    }

    /** The batch's events: ordered and filtered in place, checked, decoded, and correlated in place. */
    method ReadEvents(answers: seq<Answer>, hashes: seq<Hash>, next: int) returns (r: Result<seq<Event>, L.StepError>)
      ensures var logs := Gather(answers, hashes, next);
              r == if logs.Err? then Err(L.BadLogs(logs.error)) else
                   match R.Correlate(DecodeAll(logs.value)) { case Ok(events) => Ok(events) case Err(e) => Err(L.Decoding(e)) }
    {
      hide OrderedUnique, Admit, R.Correlate, Decode;
      var slice := new Answer[|answers|](i requires 0 <= i < |answers| => answers[i]);
      assert slice[..] == answers;
      var kept := FilterInPlace(slice);
      if kept.Err? {
        return Err(L.BadLogs(kept.error));
      }
      var logs := AdmitLogs(slice[..kept.value], hashes, next);
      if logs.Err? {
        return Err(L.BadLogs(logs.error));
      }
      AdmittedFromBlocks(slice[..kept.value], hashes, next);
      var decoded := DecodeAll(logs.value);
      var events := new Event[|decoded|](i requires 0 <= i < |decoded| => decoded[i]);
      assert events[..] == decoded;
      var error := R.CorrelateRedemptions(events);
      return if error.Some? then Err(L.Decoding(error.value)) else Ok(events[..]);
    }

    method OpenSnapshots(v: L.View) returns (error: Option<L.StepError>)
      modifies store
      ensures var s := L.OpenStep(old(store.View()), config, v);
              store.View() == s.db && (if error.Some? then s.progress == Err(error.value) else s.progress == Ok(true))
    {
      hide E.BootstrapChain;
      var next := if config.start.Some? then config.start.value else v.head;
      var anchor := L.OpeningAnchor(v, next);
      if anchor.None? {
        return Some(L.RpcError);
      }
      if anchor.value.number >= 0 {
        if v.anchorAgain.None? {
          return Some(L.RpcError);
        }
        if v.anchorAgain.value != anchor.value.hash {
          return Some(L.Canonicality);
        }
      }
      var failed := store.BootstrapChain(config.stream, anchor.value, v.openings);
      return if failed.Some? then Some(L.Database(failed.value)) else None;
    }

    method Reorg(v: L.View, next: int) returns (progress: Result<bool, L.StepError>)
      modifies store
      ensures L.Step(store.View(), progress) == L.ReorgStep(old(store.View()), config, v, next)
    {
      hide E.Rewind, L.FindAncestor;
      var blocks := E.ChainOf(store.View(), config.stream).blocks;
      var found := FindAncestor(v, next - 1);
      if found.Err? {
        return Err(found.error);
      }
      if found.value !in blocks {
        return Err(L.ReorgTooDeep);
      }
      var error := store.Rewind(config.stream, Block(found.value, blocks[found.value]), v.settled, v.canonical);
      return match error
        case None => Ok(true)
        case Some(SnapshotReorg) => Err(L.SnapshotBoundary)
        case Some(e) => Err(L.Database(e));
    }

    method Batch(v: L.View, next: int, hash: Hash) returns (progress: Result<bool, L.StepError>)
      requires config.batchSize > 0
      modifies store
      ensures L.Step(store.View(), progress) == L.BatchStep(old(store.View()), config, v, next, hash)
    {
      hide E.ApplyChain, L.Fetch, Gather, R.Correlate, DecodeAll, L.BlocksOf;
      var confirmed := v.head - config.confirmations;
      if confirmed < next {
        return Ok(false);
      }
      var end := L.BatchEnd(config, next, confirmed);
      var fetched := Fetch(v, hash, next, end);
      if fetched.Err? {
        return Err(fetched.error);
      }
      var hashes := fetched.value;
      var events := ReadEvents(v.logs, hashes, next);
      if events.Err? {
        return Err(events.error);
      }
      if v.lastAgain.None? {
        return Err(L.RpcError);
      }
      if hashes == [] || v.lastAgain.value != hashes[|hashes| - 1] {
        return Err(L.Canonicality);
      }
      var error := store.ApplyChain(config.stream, L.BlocksOf(hashes, next), events.value, config.lookback);
      return if error.Some? then Err(L.Database(error.value)) else Ok(true);
    }

    method Step(v: L.View) returns (progress: Result<bool, L.StepError>)
      requires L.ValidConfig(config)
      modifies store
      ensures L.Step(store.View(), progress) == L.Advance(old(store.View()), config, v)
    {
      hide L.OpenStep, L.ReorgStep, L.BatchStep, L.Header;
      var at := L.CheckpointOf(store.View(), config.stream);
      if at.None? {
        var error := OpenSnapshots(v);
        if error.Some? {
          return Err(error.value);
        }
        at := L.CheckpointOf(store.View(), config.stream);
        if at.None? {
          return Ok(true);
        }
      }
      if at.value.next > 0 {
        var tip := L.Header(v, at.value.next - 1);
        if tip.None? {
          return Err(L.RpcError);
        }
        if tip.value != at.value.hash {
          progress := Reorg(v, at.value.next);
          return;
        }
      }
      progress := Batch(v, at.value.next, at.value.hash);
    }
  }

  // ---- The loop of Fetch follows its recursion ----

  /** The whole fetch is what was collected, followed by the rest. */
  predicate Behind(whole: Result<seq<Hash>, L.StepError>, done: seq<Hash>, rest: Result<seq<Hash>, L.StepError>) {
    whole == if rest.Err? then Err(rest.error) else Ok(done + rest.value)
  }

  lemma Nothing(whole: Result<seq<Hash>, L.StepError>)
    ensures Behind(whole, [], whole)
  {
    if whole.Ok? { assert [] + whole.value == whole.value; }
  }

  lemma AdmittedFromBlocks(answers: seq<Answer>, hashes: seq<Hash>, next: int)
    requires Admit(answers, hashes, next).Ok?
    ensures FromBlocks(Admit(answers, hashes, next).value)
  {
  }

  lemma OneMoreHeader(v: L.View, above: Hash, done: seq<Hash>, whole: Result<seq<Hash>, L.StepError>, n: int, end: int)
    requires n <= end && L.Header(v, n).Some? && (above != NoHash ==> L.Header(v, n).value.parent == above)
    requires Behind(whole, done, L.Chained(v, above, n, end))
    ensures Behind(whole, done + [L.Header(v, n).value], L.Chained(v, L.Header(v, n).value, n + 1, end))
  {
    var h := L.Header(v, n).value;
    var rest := L.Chained(v, h, n + 1, end);
    if rest.Ok? { assert done + ([h] + rest.value) == done + [h] + rest.value; }
  }

  lemma AllAnswered(v: L.View, fetched: seq<Hash>, next: int, end: int)
    requires |fetched| == end - next + 1
    requires forall i :: 0 <= i < |fetched| ==> L.Header(v, next + i) == Some(fetched[i])
    ensures L.Answered(v, next, end)
  {
    hide L.Header;
    forall m | next <= m <= end ensures L.Header(v, m).Some? { assert L.Header(v, next + (m - next)) == Some(fetched[m - next]); }
  }
}

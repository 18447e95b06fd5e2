/**
 * The logs of a batch as the RPC answers them (orderedUniqueLogs and the checks of Step,
 * internal/chain/listener.go:491-525 and 555-576): put in chain order, rid of repeats,
 * and checked against the fetched headers.
 */
module LogOrder {
  import opened Results
  import opened Blocks
  import opened History

  /** One answer: the block number it claims, whether it was removed, and the log with its block hash. */
  datatype Answer = Answer(number: int, removed: bool, log: Log)

  datatype LogError = ConflictingLogs | RemovedLog | ForeignLog

  // ---- Ordering ----

  /** Not after: by block number, then by log index. */
  predicate NotAfter(a: Answer, b: Answer) {
    a.number < b.number || (a.number == b.number && a.log.raw.logIndex <= b.log.raw.logIndex)
  }

  predicate Ordered(s: seq<Answer>) {
    forall i, j :: 0 <= i < j < |s| ==> NotAfter(s[i], s[j])
  }

  /** Behind every element that is not after it. */
  function Insert(s: seq<Answer>, x: Answer): (r: seq<Answer>)
    requires Ordered(s)
    ensures Ordered(r) && multiset(r) == multiset(s) + multiset{x}
  {
    if s == [] then [x]
    else if NotAfter(s[|s| - 1], x) then
      Append(s, x);
      s + [x]
    else
      assert s == s[..|s| - 1] + [s[|s| - 1]];
      var front := Insert(s[..|s| - 1], x);
      InFront(s, front, x);
      front + [s[|s| - 1]]
  }

  lemma Append(s: seq<Answer>, x: Answer)
    requires Ordered(s) && s != [] && NotAfter(s[|s| - 1], x)
    ensures Ordered(s + [x])
  {
  }

  lemma InFront(s: seq<Answer>, front: seq<Answer>, x: Answer)
    requires s != [] && Ordered(s) && Ordered(front) && !NotAfter(s[|s| - 1], x)
    requires multiset(front) == multiset(s[..|s| - 1]) + multiset{x}
    ensures Ordered(front + [s[|s| - 1]])
  {
    forall i | 0 <= i < |front| ensures NotAfter(front[i], s[|s| - 1]) {
      assert front[i] in multiset(front);
      if front[i] != x {
        assert front[i] in multiset(s[..|s| - 1]);
        var j :| 0 <= j < |s| - 1 && s[j] == front[i];
      }
    }
  }

  /** The stable sort by (block number, log index). */
  function Sorted(s: seq<Answer>): (r: seq<Answer>)
    ensures Ordered(r) && multiset(r) == multiset(s)
  {
    if s == [] then [] else
      assert s == s[..|s| - 1] + [s[|s| - 1]];
      Insert(Sorted(s[..|s| - 1]), s[|s| - 1])
  }

  // ---- Repeats ----

  predicate SameIdentity(a: Answer, b: Answer) {
    a.log.block == b.log.block && a.log.raw.txHash == b.log.raw.txHash && a.log.raw.logIndex == b.log.raw.logIndex
  }

  /** Drops an answer equal to the one kept before it; one of the same identity but other content is an error. */
  function Unique(s: seq<Answer>): Result<seq<Answer>, LogError> {
    if s == [] then Ok([]) else
      var kept :- Unique(s[..|s| - 1]);
      var x := s[|s| - 1];
      if kept != [] && SameIdentity(kept[|kept| - 1], x) then
        if kept[|kept| - 1] == x then Ok(kept) else Err(ConflictingLogs)
      else Ok(kept + [x])
  }

  function OrderedUnique(answers: seq<Answer>): Result<seq<Answer>, LogError> {
    Unique(Sorted(answers))
  }

  lemma {:induction false} UniquePrefix(s: seq<Answer>, n: nat)
    requires n <= |s|
    ensures Unique(s[..n]).Err? ==> Unique(s) == Unique(s[..n])
  {
    if n < |s| {
      UniquePrefix(s[..|s| - 1], n);
      assert s[..|s| - 1][..n] == s[..n];
    } else {
      assert s[..n] == s;
    }
  }

  lemma UniqueSnoc(s: seq<Answer>, x: Answer, kept: seq<Answer>)
    requires Unique(s) == Ok(kept)
    ensures var repeats := kept != [] && SameIdentity(kept[|kept| - 1], x);
            if !repeats then Unique(s + [x]) == Ok(kept + [x])
            else if kept[|kept| - 1] == x then Unique(s + [x]) == Ok(kept)
            else Unique(s + [x]) == Err(ConflictingLogs)
  {
    hide SameIdentity;
    assert (s + [x])[..|s|] == s;
  }

  lemma UniqueNext(s: seq<Answer>, i: nat, kept: seq<Answer>)
    requires i < |s| && Unique(s[..i]) == Ok(kept)
    ensures var repeats := kept != [] && SameIdentity(kept[|kept| - 1], s[i]);
            if !repeats then Unique(s[..i + 1]) == Ok(kept + [s[i]])
            else if kept[|kept| - 1] == s[i] then Unique(s[..i + 1]) == Ok(kept)
            else Unique(s) == Err(ConflictingLogs)
  {
    hide Unique, SameIdentity;
    assert s[..i + 1] == s[..i] + [s[i]];
    UniqueSnoc(s[..i], s[i], kept);
    UniquePrefix(s, i + 1);
  }

  lemma SortedLength(s: seq<Answer>)
    ensures |Sorted(s)| == |s|
  {
    assert |multiset(Sorted(s))| == |multiset(s)|;
  }

  /** The filter as it runs: the kept answers overwrite the front of the sorted slice. */
  method FilterInPlace(a: array<Answer>) returns (r: Result<nat, LogError>)
    modifies a
    ensures match r
            case Ok(n) => n <= a.Length && OrderedUnique(old(a[..])) == Ok(a[..n])
            case Err(e) => OrderedUnique(old(a[..])) == Err(e)
  {
    hide Sorted, SameIdentity, Unique;
    var sorted := Sorted(a[..]);
    SortedLength(a[..]);
    forall i | 0 <= i < a.Length {
      a[i] := sorted[i];
    }
    var kept, i := 0, 0;
    UniqueNothing(sorted);
    while i < a.Length
      invariant 0 <= kept <= i <= a.Length
      invariant forall j :: i <= j < a.Length ==> a[j] == sorted[j]
      invariant Unique(sorted[..i]) == Ok(a[..kept])
    {
      UniqueNext(sorted, i, a[..kept]);
      if kept != 0 && SameIdentity(a[kept - 1], a[i]) {
        if a[kept - 1] != a[i] {
          return Err(ConflictingLogs);
        }
      } else {
        ghost var before := a[..kept];
        a[kept] := a[i];
        kept := kept + 1;
        assert a[..kept] == before + [sorted[i]];
      }
      i := i + 1;
    }
    assert sorted[..i] == sorted;
    return Ok(kept);
  }

  lemma UniqueNothing(s: seq<Answer>)
    ensures Unique(s[..0]) == Ok([])
  {
  }

  // ---- Repeats and order do not matter ----

  predicate Strictly(s: seq<Answer>) {
    forall i, j :: 0 <= i < j < |s| ==> NotAfter(s[i], s[j]) && !NotAfter(s[j], s[i])
  }

  /** Answers about one chain: the identity determines the place. */
  predicate Consistent(s: seq<Answer>) {
    forall i :: 0 <= i < |s| ==> s[i].log.block.Hash? && s[i].number == s[i].log.block.number
  }

  lemma {:induction false} UniqueOf(s: seq<Answer>, wanted: seq<Answer>)
    requires Ordered(s) && Strictly(wanted) && Consistent(wanted)
    requires forall x :: x in s <==> x in wanted
    ensures Unique(s) == Ok(wanted)
  {
    if s == [] {
      if wanted != [] { SomeWanted(s, wanted); }
    } else {
      var front, x := s[..|s| - 1], s[|s| - 1];
      assert s == front + [x];
      assert x in wanted;
      var n := |wanted| - 1;
      LastIsGreatest(s, wanted);
      if x in front {
        forall y ensures y in front <==> y in wanted { assert y in s <==> y in front; }
        UniqueOf(front, wanted);
      } else {
        forall y ensures y in front <==> y in wanted[..n] {
          assert y in s <==> y in front || y == x;
          NotRepeated(wanted, y);
        }
        UniqueOf(front, wanted[..n]);
        assert wanted == wanted[..n] + [x];
      }
    }
  }

  lemma SomeWanted(s: seq<Answer>, wanted: seq<Answer>)
    requires wanted != [] && forall x :: x in s <==> x in wanted
    ensures s != []
  {
    assert wanted[0] in wanted;
  }

  lemma LastIsGreatest(s: seq<Answer>, wanted: seq<Answer>)
    requires s != [] && Ordered(s) && Strictly(wanted) && forall x :: x in s <==> x in wanted
    ensures wanted != [] && wanted[|wanted| - 1] == s[|s| - 1]
  {
    var x := s[|s| - 1];
    assert x in wanted;
    var k :| 0 <= k < |wanted| && wanted[k] == x;
    var last := wanted[|wanted| - 1];
    assert last in s;
    var j :| 0 <= j < |s| && s[j] == last;
  }

  lemma NotRepeated(wanted: seq<Answer>, y: Answer)
    requires Strictly(wanted) && wanted != []
    ensures var n := |wanted| - 1;
            y in wanted[..n] <==> y in wanted && y != wanted[n]
  {
    var n := |wanted| - 1;
    if y in wanted[..n] {
      var i :| 0 <= i < n && wanted[i] == y;
    }
  }

  /**
   * Whatever order the RPC answers in and however often it repeats itself, the filter
   * returns the logs in chain order, once each.
   */
  lemma OrderAndRepeatsDoNotMatter(answers: seq<Answer>, wanted: seq<Answer>)
    requires Strictly(wanted) && Consistent(wanted)
    requires forall x :: x in answers <==> x in wanted
    ensures OrderedUnique(answers) == Ok(wanted)
  {
    var s := Sorted(answers);
    forall x ensures x in s <==> x in wanted {
      assert x in s <==> x in multiset(s);
      assert x in answers <==> x in multiset(answers);
    }
    UniqueOf(s, wanted);
  }

  // ---- Against the headers ----

  /** The answers one by one: not removed, and of the fetched block of that number. */
  function Admit(answers: seq<Answer>, hashes: seq<Hash>, next: int): (r: Result<seq<Log>, LogError>)
    ensures r.Ok? ==> FromBlocks(r.value)
  {
    if answers == [] then Ok([]) else
      var front :- Admit(answers[..|answers| - 1], hashes, next);
      var x := answers[|answers| - 1];
      if x.removed then Err(RemovedLog)
      else if !(0 <= x.number - next < |hashes|) || hashes[x.number - next] != x.log.block || x.log.block == NoHash then Err(ForeignLog)
      else Ok(front + [x.log])
  }

  lemma {:induction false} AdmitPrefix(s: seq<Answer>, hashes: seq<Hash>, next: int, n: nat)
    requires n <= |s|
    ensures Admit(s[..n], hashes, next).Err? ==> Admit(s, hashes, next) == Admit(s[..n], hashes, next)
  {
    if n < |s| {
      AdmitPrefix(s[..|s| - 1], hashes, next, n);
      assert s[..|s| - 1][..n] == s[..n];
    } else {
      assert s[..n] == s;
    }
  }

  method AdmitLogs(answers: seq<Answer>, hashes: seq<Hash>, next: int) returns (r: Result<seq<Log>, LogError>)
    ensures r == Admit(answers, hashes, next)
  {
    var logs, i := [], 0;
    while i < |answers|
      invariant 0 <= i <= |answers|
      invariant Admit(answers[..i], hashes, next) == Ok(logs)
    {
      var x := answers[i];
      assert answers[..i + 1][..i] == answers[..i];
      AdmitPrefix(answers, hashes, next, i + 1);
      if x.removed {
        return Err(RemovedLog);
      }
      if !(0 <= x.number - next < |hashes|) || hashes[x.number - next] != x.log.block || x.log.block == NoHash {
        return Err(ForeignLog);
      }
      logs := logs + [x.log];
      i := i + 1;
    }
    assert answers[..i] == answers;
    return Ok(logs);
  }

  function Gather(answers: seq<Answer>, hashes: seq<Hash>, next: int): (r: Result<seq<Log>, LogError>)
    ensures r.Ok? ==> FromBlocks(r.value)
  {
    var ordered :- OrderedUnique(answers);
    Admit(ordered, hashes, next)
  }

  function AnswerOf(l: Log): Answer {
    Answer(if l.block.Hash? then l.block.number else -1, false, l)
  }

  function AnswersOf(logs: seq<Log>): (answers: seq<Answer>)
    ensures |answers| == |logs| && forall i :: 0 <= i < |logs| ==> answers[i] == AnswerOf(logs[i])
  {
    seq(|logs|, i requires 0 <= i < |logs| => AnswerOf(logs[i]))
  }

  /** The answers are the logs of these blocks, in some order, perhaps repeated. */
  ghost predicate Complete(answers: seq<Answer>, hashes: seq<Hash>) {
    && (forall i :: 0 <= i < |hashes| ==> hashes[i].Hash?)
    && forall x :: x in answers <==> x in AnswersOf(LogsOf(hashes))
  }

  ghost predicate Consecutive(hashes: seq<Hash>, next: int) {
    forall i :: 0 <= i < |hashes| ==> ValidBlock(hashes[i]) && hashes[i].number == next + i
  }

  /** The logs of consecutive valid blocks come in strict order. */
  lemma {:induction false} LogsInOrder(hashes: seq<Hash>, next: int)
    requires Consecutive(hashes, next)
    ensures var logs := LogsOf(hashes);
            && (forall l :: l in logs ==> l.block.Hash? && 0 <= l.block.number - next < |hashes| && hashes[l.block.number - next] == l.block)
            && Strictly(AnswersOf(logs))
  {
    if hashes != [] {
      var n := |hashes| - 1;
      var front, last := hashes[..n], hashes[n];
      assert ValidBlock(last);
      assert Consecutive(front, next);
      LogsInOrder(front, next);
      var before, after := LogsOf(front), BlockLogs(last);
      hide LogsOf, ValidBlock, BlockLogs;
      assert LogsOf(hashes) == before + after by { LogsSnoc(hashes); }
      BlockLogsStrict(last);
      forall l: Log | l in before + after
        ensures l.block.Hash? && 0 <= l.block.number - next < |hashes| && hashes[l.block.number - next] == l.block
      {
        if l in before { assert front[l.block.number - next] == l.block; }
      }
      StrictConcat(before, after);
    }
  }

  lemma LogsSnoc(hashes: seq<Hash>)
    requires hashes != [] && forall i :: 0 <= i < |hashes| ==> hashes[i].Hash?
    ensures LogsOf(hashes) == LogsOf(hashes[..|hashes| - 1]) + BlockLogs(hashes[|hashes| - 1])
  {
  }

  lemma BlockLogsStrict(h: Hash)
    requires ValidBlock(h)
    ensures Strictly(AnswersOf(BlockLogs(h))) && forall l :: l in BlockLogs(h) ==> l.block == h
  {
  }

  lemma StrictConcat(a: seq<Log>, b: seq<Log>)
    requires Strictly(AnswersOf(a)) && Strictly(AnswersOf(b))
    requires forall x, y :: x in a && y in b ==> x.block.Hash? && y.block.Hash? && x.block.number < y.block.number
    ensures Strictly(AnswersOf(a + b))
  {
    var s := AnswersOf(a + b);
    forall i, j | 0 <= i < j < |s| ensures NotAfter(s[i], s[j]) && !NotAfter(s[j], s[i]) {
      if j < |a| {
        assert s[i] == AnswersOf(a)[i] && s[j] == AnswersOf(a)[j];
      } else if i < |a| {
        assert a[i] in a && b[j - |a|] in b;
      } else {
        assert s[i] == AnswersOf(b)[i - |a|] && s[j] == AnswersOf(b)[j - |a|];
      }
    }
  }

  lemma {:induction false} AdmitsAll(logs: seq<Log>, hashes: seq<Hash>, next: int)
    requires forall l :: l in logs ==> l.block.Hash? && 0 <= l.block.number - next < |hashes| && hashes[l.block.number - next] == l.block
    ensures Admit(AnswersOf(logs), hashes, next) == Ok(logs)
  {
    if logs != [] {
      var front, last := logs[..|logs| - 1], logs[|logs| - 1];
      assert last in logs;
      AdmitsAll(front, hashes, next);
      hide Admit;
      assert AnswersOf(logs) == AnswersOf(front) + [AnswerOf(last)];
      AdmitsNext(AnswersOf(front), front, last, hashes, next);
      assert logs == front + [last];
    }
  }

  lemma AdmitsNext(answers: seq<Answer>, logs: seq<Log>, l: Log, hashes: seq<Hash>, next: int)
    requires Admit(answers, hashes, next) == Ok(logs)
    requires l.block.Hash? && 0 <= l.block.number - next < |hashes| && hashes[l.block.number - next] == l.block
    ensures Admit(answers + [AnswerOf(l)], hashes, next) == Ok(logs + [l])
  {
    assert (answers + [AnswerOf(l)])[..|answers|] == answers;
  }

  /** Complete answers for consecutive valid blocks pass every check and yield exactly the blocks' logs. */
  lemma GathersTheLogs(answers: seq<Answer>, hashes: seq<Hash>, next: int)
    requires Consecutive(hashes, next) && Complete(answers, hashes)
    ensures Gather(answers, hashes, next) == Ok(LogsOf(hashes))
  {
    LogsInOrder(hashes, next);
    var logs := LogsOf(hashes);
    hide LogsOf, OrderedUnique, Admit;
    AnswersConsistent(logs);
    OrderAndRepeatsDoNotMatter(answers, AnswersOf(logs));
    AdmitsAll(logs, hashes, next);
  }

  lemma AnswersConsistent(logs: seq<Log>)
    requires forall l :: l in logs ==> l.block.Hash?
    ensures Consistent(AnswersOf(logs))
  {
    forall i | 0 <= i < |logs| ensures logs[i].block.Hash? { assert logs[i] in logs; }
  }
}

/** The log counter: how often a pattern (minus a revert pattern) fires over the logs
    that were written up to the moment counting started. */
module LogCounters {
  import opened Options
  import opened Regexp
  import opened LogBuffers

  /** What the counter's select sees next. When the list ends, the timeout fires. */
  datatype Arrival = Received(log: Log) | Closed

  /** The logs that are pushed: the longest prefix of arrivals that are logs no newer than
      `start`, so what ends them is a newer log, a close or the timeout. */
  ghost predicate Accepts(start: int, arrivals: seq<Arrival>, logs: seq<Log>) {
    && AcceptsAll(start, arrivals, logs)
    && (|logs| < |arrivals| ==> arrivals[|logs|].Closed? || arrivals[|logs|].log.timestamp > start)
  }

  ghost predicate AcceptsAll(start: int, arrivals: seq<Arrival>, logs: seq<Log>) {
    |logs| <= |arrivals| && forall k :: 0 <= k < |logs| ==> arrivals[k] == Received(logs[k]) && logs[k].timestamp <= start
  }

  lemma AcceptsNext(start: int, arrivals: seq<Arrival>, logs: seq<Log>, log: Log)
    requires AcceptsAll(start, arrivals, logs) && |logs| < |arrivals| && arrivals[|logs|] == Received(log) && log.timestamp <= start
    ensures AcceptsAll(start, arrivals, logs + [log])
  {
  }

  /** There is exactly one such list. */
  lemma AcceptsIsUnique(start: int, arrivals: seq<Arrival>, a: seq<Log>, b: seq<Log>)
    requires Accepts(start, arrivals, a) && Accepts(start, arrivals, b)
    ensures a == b
  {
    assert |a| >= |b| && |b| >= |a|;
  }

  /** After how many of the pushes of `logs`, on top of `before`, the whole-buffer scan finds a match. */
  function Firings(before: seq<Log>, logs: seq<Log>, max: nat, re: Regex): (r: nat) {
    if logs == [] then 0
    else Firings(before, logs[..|logs| - 1], max, re) +
         if ReferenceMatch(before + logs, max, re) != [] then 1 else 0
  }

  /** Firings of the pattern less firings of the revert pattern, if there is one. */
  function Net(before: seq<Log>, logs: seq<Log>, max: nat, p: Pattern, revert: Option<Pattern>): (r: int) {
    Firings(before, logs, max, p.regexp) -
    if revert.None? then 0 else Firings(before, logs, max, revert.value.regexp)
  }

  /** How many of the messages match on their own. */
  function MatchingMessages(logs: seq<Log>, re: Regex): (r: nat) {
    if logs == [] then 0
    else MatchingMessages(logs[..|logs| - 1], re) +
         if Search(re, logs[|logs| - 1].message).Some? then 1 else 0
  }

  /** After the first `n` of the pushes the scan finds a match. */
  predicate FiresAfter(before: seq<Log>, logs: seq<Log>, max: nat, re: Regex, n: nat) {
    n <= |logs| && ReferenceMatch(before + logs[..n], max, re) != []
  }

  /** The pushes after which the scan finds a match. */
  function FiringPushes(before: seq<Log>, logs: seq<Log>, max: nat, re: Regex): set<nat> {
    Where(|logs|, (n: nat) => FiresAfter(before, logs, max, re, n))
  }

  function Where(n: nat, p: nat -> bool): set<nat> {
    set k | 1 <= k <= n && p(k)
  }

  lemma WhereNext(n: nat, p: nat -> bool)
    ensures |Where(n + 1, p)| == |Where(n, p)| + if p(n + 1) then 1 else 0
  {
    assert Where(n + 1, p) == if p(n + 1) then Where(n, p) + {n + 1} else Where(n, p);
  }

  lemma {:induction false} FiringsCountPushes(before: seq<Log>, logs: seq<Log>, max: nat, re: Regex)
    ensures Firings(before, logs, max, re) == |FiringPushes(before, logs, max, re)|
  {
    var p := (n: nat) => FiresAfter(before, logs, max, re, n);
    FiringsCountFirst(before, logs, max, re, p, |logs|);
    assert FiringPushes(before, logs, max, re) == Where(|logs|, p);
    assert logs[..|logs|] == logs;
  }

  lemma {:induction false} FiringsCountFirst(before: seq<Log>, logs: seq<Log>, max: nat, re: Regex, p: nat -> bool, n: nat)
    requires n <= |logs| && forall k :: p(k) == FiresAfter(before, logs, max, re, k)
    ensures Firings(before, logs[..n], max, re) == |Where(n, p)|
    decreases n
  {
    if n == 0 {
      assert Where(0, p) == {};
    } else {
      FiringsCountFirst(before, logs, max, re, p, n - 1);
      WhereNext(n - 1, p);
      FiringsNext(before, logs, max, re, n);
      assert p(n) == FiresAfter(before, logs, max, re, n);
    }
  }

  lemma FiringsNext(before: seq<Log>, logs: seq<Log>, max: nat, re: Regex, n: nat)
    requires 1 <= n <= |logs|
    ensures Firings(before, logs[..n], max, re) ==
            Firings(before, logs[..n - 1], max, re) + if FiresAfter(before, logs, max, re, n) then 1 else 0
  {
    assert logs[..n][..n - 1] == logs[..n - 1];
  }

  /** The count is the number of pushes after which the pattern matches the buffer, less the number of
      those after which the revert pattern, if there is one, does. */
  lemma {:induction false} NetCountsPushes(before: seq<Log>, logs: seq<Log>, max: nat, p: Pattern, revert: Option<Pattern>)
    ensures Net(before, logs, max, p, revert) ==
            |FiringPushes(before, logs, max, p.regexp)| -
            if revert.Some? then |FiringPushes(before, logs, max, revert.value.regexp)| else 0
  {
    FiringsCountPushes(before, logs, max, p.regexp);
    if revert.Some? { FiringsCountPushes(before, logs, max, revert.value.regexp); }
  }

  /** For a last-line-only pattern the count does not depend on the buffer at all. */
  lemma {:induction false} FiringsPerMessage(before: seq<Log>, logs: seq<Log>, max: nat, p: SoundPattern)
    requires max >= 1 && p.lastLineOnly
    ensures Firings(before, logs, max, p.regexp) == MatchingMessages(logs, p.regexp)
  {
    if logs != [] {
      FiringsPerMessage(before, logs[..|logs| - 1], max, p);
      ShortcutIsReference(before + logs, max, p);
    }
  }

  /** So the whole count is a per-message count, whatever the capacity and whatever was pushed before. */
  lemma {:induction false} NetPerMessage(before: seq<Log>, logs: seq<Log>, max: nat, p: SoundPattern, revert: Option<SoundPattern>)
    requires max >= 1 && p.lastLineOnly
    requires revert.Some? ==> revert.value.lastLineOnly
    ensures Net(before, logs, max, p, revert) ==
            MatchingMessages(logs, p.regexp) - if revert.None? then 0 else MatchingMessages(logs, revert.value.regexp)
  {
    FiringsPerMessage(before, logs, max, p);
    if revert.Some? { FiringsPerMessage(before, logs, max, revert.value); }
  }

  class LogCounter {
    const buffer: LogBuffer
    const pattern: SoundPattern
    const revertPattern: Option<SoundPattern>

    ghost predicate Valid()
      reads this, buffer, buffer.buffer, buffer.msg
    {
      buffer.Valid() && buffer.max >= 1
    }

    constructor (pattern: SoundPattern, revertPattern: Option<SoundPattern>)
      ensures Valid() && buffer.max == 1000 && buffer.pushed == []
      ensures this.pattern == pattern && this.revertPattern == revertPattern
    {
      this.pattern := pattern;
      this.revertPattern := revertPattern;
      buffer := new LogBuffer(1000);
    }

    /** The count over the accepted logs, and an error exactly when the channel was closed first. */
    method Count(start: int, arrivals: seq<Arrival>) returns (count: int, closed: bool, ghost logs: seq<Log>)
      requires Valid()
      modifies buffer, buffer.buffer, buffer.msg
      ensures Valid()
      ensures Accepts(start, arrivals, logs) && buffer.pushed == old(buffer.pushed) + logs
      ensures count == Net(old(buffer.pushed), logs, buffer.max, pattern, revertPattern)
      ensures closed <==> |logs| < |arrivals| && arrivals[|logs|].Closed?
    {
      count, closed, logs := 0, false, [];
      ghost var before := buffer.pushed;
      assert before + [] == before;
      var n := 0;
      while n < |arrivals|
        invariant n == |logs| && AcceptsAll(start, arrivals, logs) && !closed && Counted(before, logs, count)
      {
        if arrivals[n].Closed? {
          closed := true;
          break;
        }
        if start < arrivals[n].log.timestamp {
          break;
        }
        count := ObserveNext(arrivals[n].log, before, logs, count);
        AcceptsNext(start, arrivals, logs, arrivals[n].log);
        logs := logs + [arrivals[n].log];
        n := n + 1;
      }
    }

    /** On top of `before`, the logs have been pushed and their count is `count`. */
    ghost predicate Counted(before: seq<Log>, logs: seq<Log>, count: int)
      reads this, buffer, buffer.buffer, buffer.msg
    {
      Valid() && buffer.pushed == before + logs && count == Net(before, logs, buffer.max, pattern, revertPattern)
    }

    /** One turn of the loop, seen as a step from the logs counted so far to one more. */
    method ObserveNext(log: Log, ghost before: seq<Log>, ghost logs: seq<Log>, count: int) returns (more: int)
      requires Counted(before, logs, count)
      modifies buffer, buffer.buffer, buffer.msg
      ensures Counted(before, logs + [log], more)
    {
      var delta := Observe(log);
      more := count + delta;
      assert buffer.pushed == before + logs + [log] == before + (logs + [log]);
      NetStep(before, logs, log, buffer.max, pattern, revertPattern);
    }

    /** One turn of the loop: push, then match both patterns. */
    method Observe(log: Log) returns (delta: int)
      requires Valid()
      modifies buffer, buffer.buffer, buffer.msg
      ensures Valid() && buffer.pushed == old(buffer.pushed) + [log]
      ensures delta == Change(buffer.pushed, buffer.max, pattern, revertPattern)
    {
      buffer.Push(log);
      delta := 0;
      var matched := buffer.Match(pattern);
      if |matched| != 0 {
        delta := delta + 1;
      }
      if revertPattern.Some? {
        var reverted := buffer.Match(revertPattern.value);
        if |reverted| != 0 {
          delta := delta - 1;
        }
      }
    }
  }

  function Change(pushed: seq<Log>, max: nat, p: Pattern, revert: Option<Pattern>): (r: int) {
    (if ReferenceMatch(pushed, max, p.regexp) != [] then 1 else 0) -
    (if revert.Some? && ReferenceMatch(pushed, max, revert.value.regexp) != [] then 1 else 0)
  }

  lemma {:induction false} NetStep(before: seq<Log>, logs: seq<Log>, log: Log, max: nat, p: Pattern, revert: Option<Pattern>)
    ensures Net(before, logs + [log], max, p, revert) ==
            Net(before, logs, max, p, revert) + Change(before + logs + [log], max, p, revert)
  {
    assert (logs + [log])[..|logs|] == logs;
    assert before + (logs + [log]) == before + logs + [log];
  }
}

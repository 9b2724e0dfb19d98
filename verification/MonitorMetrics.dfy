/** How a monitor's conditions and events show up in the problem gauges and counters. */
module MonitorMetrics {
  import opened Options
  import opened Conditions
  import opened ProblemMetrics
  import opened Int64

  // ----- counters -----

  function CountOps(events: seq<Event>): (r: seq<Op>)
    ensures |r| == |events|
  {
    seq(|events|, k requires 0 <= k < |events| => Count(events[k].reason, 1))
  }

  /** The warnings with a given reason. */
  function Warnings(events: seq<Event>, r: string): (n: nat) {
    if events == [] then 0
    else
      var e := events[|events| - 1];
      Warnings(events[..|events| - 1], r) + if e.severity == Warn && e.reason == r then 1 else 0
  }

  lemma {:induction false} WarningsAppend(a: seq<Event>, b: seq<Event>, r: string)
    ensures Warnings(a + b, r) == Warnings(a, r) + Warnings(b, r)
  {
    if b == [] {
      assert a + b == a;
    } else {
      assert (a + b)[..|a + b| - 1] == a + b[..|b| - 1];
      WarningsAppend(a, b[..|b| - 1], r);
    }
  }

  /** What is counted for a reason by the operations whose record does not fail. */
  function Counted(ops: seq<Op>, faults: seq<Fault>, r: string): int
    requires |faults| == |ops|
  {
    if ops == [] then 0
    else
      var n := |ops| - 1;
      Counted(ops[..n], faults[..n], r) +
      match ops[n]
      case Count(q, m) => if q == r && !faults[n].first then m else 0
      case Show(_, _, _) => 0
  }

  lemma {:induction false} CountedAppends(a: seq<Op>, fa: seq<Fault>, c: seq<Op>, fc: seq<Fault>, r: string)
    requires |fa| == |a| && |fc| == |c|
    ensures Counted(a + c, fa + fc, r) == Counted(a, fa, r) + Counted(c, fc, r)
  {
    if c == [] {
      assert a + c == a && fa + fc == fa;
    } else {
      var n := |c| - 1;
      assert (a + c)[..|a + c| - 1] == a + c[..n] && (fa + fc)[..|a + c| - 1] == fa + fc[..n];
      CountedAppends(a, fa, c[..n], fc[..n], r);
    }
  }

  lemma {:induction false} ShowsCountNothing(ops: seq<Op>, faults: seq<Fault>, r: string)
    requires |faults| == |ops| && forall k :: 0 <= k < |ops| ==> ops[k].Show?
    ensures Counted(ops, faults, r) == 0
  {
    if ops != [] { ShowsCountNothing(ops[..|ops| - 1], faults[..|ops| - 1], r); }
  }

  /** Without failures, one count for every warning counts the warnings. */
  lemma {:induction false} CountsWarnings(events: seq<Event>, r: string)
    requires forall k :: 0 <= k < |events| ==> events[k].severity == Warn
    ensures Counted(CountOps(events), Clean(|events|), r) == Warnings(events, r)
  {
    if events != [] {
      var n := |events| - 1;
      CountsWarnings(events[..n], r);
      assert CountOps(events)[..n] == CountOps(events[..n]) && Clean(|events|)[..n] == Clean(n);
    }
  }

  ghost predicate Counts(b: Board, r: string, n: int) {
    Counter(b, r) == Wrap(n)
  }

  /** Whatever fails, a counter shows what the records that did not fail have counted, modulo 2^64. */
  lemma {:induction false} CountersCount(b: Board, ops: seq<Op>, faults: seq<Fault>, r: string, n: int)
    requires |faults| == |ops| && Counts(b, r, n)
    ensures Counts(PerformAll(b, ops, faults), r, n + Counted(ops, faults, r))
  {
    if ops != [] {
      var k := |ops| - 1;
      CountersCount(b, ops[..k], faults[..k], r, n);
      CountOnce(PerformAll(b, ops[..k], faults[..k]), ops[k], faults[k], r, n + Counted(ops[..k], faults[..k], r));
    }
  }

  lemma CountOnce(b: Board, op: Op, fault: Fault, r: string, n: int)
    requires Counts(b, r, n)
    ensures Counts(Perform(b, op, fault), r, n + if op.Count? && op.reason == r && !fault.first then op.n else 0)
  {
    if op.Count? { WrapOnce(n, op.n); }
  }

  /** Counts every event once; any record may fail. */
  method CountAll(metrics: ProblemMetricsManager, events: seq<Event>, ghost b: Board) returns (ghost faults: seq<Fault>)
    requires metrics.Shows(b)
    modifies metrics.problemCounter
    ensures |faults| == |events| && metrics.Shows(PerformAll(b, CountOps(events), faults))
  {
    faults := [];
    for n := 0 to |events|
      invariant |faults| == n && metrics.Shows(PerformAll(b, CountOps(events[..n]), faults))
    {
      var fail: bool := *;
      var ok := metrics.IncrementProblemCounter(events[n].reason, 1, fail, PerformAll(b, CountOps(events[..n]), faults));
      PerformNext(b, CountOps(events[..n]), faults, Count(events[n].reason, 1), Fault(fail, false));
      assert CountOps(events[..n + 1]) == CountOps(events[..n]) + [Count(events[n].reason, 1)];
      faults := faults + [Fault(fail, false)];
    }
    assert events[..|events|] == events;
  }

  // ----- gauges -----

  function ShowOps(cs: seq<Condition>): (r: seq<Op>)
    ensures |r| == |cs|
  {
    seq(|cs|, k requires 0 <= k < |cs| => Show(cs[k].typ, cs[k].reason, cs[k].status == True))
  }

  /** Conditions that share their type are not true. */
  ghost predicate Settled(cs: seq<Condition>) {
    forall i, j :: 0 <= i < j < |cs| && cs[i].typ == cs[j].typ ==> cs[i].status != True && cs[j].status != True
  }

  /** The condition of type `t` is true for reason `r`. */
  predicate IsActive(cs: seq<Condition>, t: string, r: string) {
    var i := FirstOf(cs, t);
    i.Some? && cs[i.value].status == True && cs[i.value].reason == r
  }

  ghost predicate TypeTracks(b: Board, cs: seq<Condition>, t: string) {
    forall r :: Gauge(b, t, r) == if IsActive(cs, t, r) then 1 else 0
  }

  /** The gauges show exactly the active conditions. */
  ghost predicate Tracks(b: Board, cs: seq<Condition>) {
    OneReason(b) && forall t :: TypeTracks(b, cs, t)
  }

  /** No gauge of a type without a condition is set. */
  ghost predicate Known(b: Board, cs: seq<Condition>) {
    forall t, r :: FirstOf(cs, t).None? ==> Gauge(b, t, r) == 0
  }

  lemma {:induction false} PerformKeepsKnown(b: Board, ops: seq<Op>, faults: seq<Fault>, cs: seq<Condition>)
    requires |faults| == |ops| && Known(b, cs)
    requires forall k :: 0 <= k < |ops| && ops[k].Show? ==> FirstOf(cs, ops[k].typ).Some?
    ensures Known(PerformAll(b, ops, faults), cs)
  {
    if ops != [] {
      var n := |ops| - 1;
      PerformKeepsKnown(b, ops[..n], faults[..n], cs);
      var before := PerformAll(b, ops[..n], faults[..n]);
      forall t, r | FirstOf(cs, t).None? ensures Gauge(Perform(before, ops[n], faults[n]), t, r) == 0 {
        assert Gauge(before, t, r) == 0;
      }
    }
  }

  /** Showing every condition in order, without failures, makes the gauges right from whatever they were. */
  lemma {:induction false} GaugesShowConditions(b: Board, cs: seq<Condition>)
    requires OneReason(b) && Settled(cs)
    ensures var b' := PerformAll(b, ShowOps(cs), Clean(|cs|));
      && OneReason(b')
      && forall t, r :: Gauge(b', t, r) == if FirstOf(cs, t).None? then Gauge(b, t, r) else if IsActive(cs, t, r) then 1 else 0
  {
    if cs != [] {
      var n := |cs| - 1;
      var c, init := cs[n], cs[..n];
      var mid := PerformAll(b, ShowOps(init), Clean(n));
      GaugesShowConditions(b, init);
      assert ShowOps(cs)[..n] == ShowOps(init) && Clean(|cs|)[..n] == Clean(n);
      SetGaugeSets(mid, c.typ, c.reason, c.status == True);
      assert cs == init + [c];
      forall t, r
        ensures Gauge(PerformAll(b, ShowOps(cs), Clean(|cs|)), t, r) ==
                if FirstOf(cs, t).None? then Gauge(b, t, r) else if IsActive(cs, t, r) then 1 else 0
      {
        FirstOfSnoc(init, c, t);
      }
    }
  }

  lemma FirstOfSnoc(init: seq<Condition>, c: Condition, t: string)
    ensures FirstOf(init + [c], t) == if FirstOf(init, t).Some? then FirstOf(init, t) else if c.typ == t then Some(|init|) else None
  {
    var cs := init + [c];
    var a, b := FirstOf(cs, t), FirstOf(init, t);
    if b.Some? { assert cs[b.value].typ == t; }
    if a.Some? && a.value < |init| { assert init[a.value].typ == t; }
    if c.typ == t { assert cs[|init|].typ == t; }
  }

  // ----- start -----

  /** Before a monitor starts, every rule's gauge is cleared and its counter created. */
  function StartBoard(rules: seq<Rule>): Board {
    if rules == [] then BLANK
    else
      var rule := rules[|rules| - 1];
      var b := StartBoard(rules[..|rules| - 1]);
      Increment(if rule.temporary then b else SetGauge(b, rule.condition, rule.reason, false, false, false), rule.reason, 0)
  }

  lemma {:induction false} StartBoardIsZero(rules: seq<Rule>)
    ensures var b := StartBoard(rules);
      && OneReason(b)
      && (forall t, r :: Gauge(b, t, r) == 0)
      && (forall r :: Counts(b, r, 0))
  {
    if rules != [] {
      var rule := rules[|rules| - 1];
      var b := StartBoard(rules[..|rules| - 1]);
      StartBoardIsZero(rules[..|rules| - 1]);
      SetGaugeSets(b, rule.condition, rule.reason, false);
      var mid := if rule.temporary then b else SetGauge(b, rule.condition, rule.reason, false, false, false);
      assert OneReason(mid) && mid.counter == b.counter;
      assert forall r :: Counter(mid, r) == Counter(b, r) && Counts(b, r, 0);
      IncrementCounts(mid, rule.reason, 0);
    }
  }

  lemma StartIsClear(rules: seq<Rule>)
    ensures OneReason(StartBoard(rules)) && forall t, r :: Gauge(StartBoard(rules), t, r) == 0
  {
    StartBoardIsZero(rules);
  }

  /** From there on, whichever operations are performed and whichever of their records fail. */
  lemma {:induction false} MetricsFromStart(rules: seq<Rule>, ops: seq<Op>, faults: seq<Fault>, reason: string)
    requires |faults| == |ops|
    ensures var b := PerformAll(StartBoard(rules), ops, faults); OneReason(b) && Counts(b, reason, Counted(ops, faults, reason))
  {
    StartBoardIsZero(rules);
    PerformKeepsOneReason(StartBoard(rules), ops, faults);
    assert Counts(StartBoard(rules), reason, 0);
    CountersCount(StartBoard(rules), ops, faults, reason, 0);
  }

  /** It tracks conditions that are all in their initial state. */
  lemma {:induction false} StartTracks(defaults: seq<Condition>, times: seq<int>, rules: seq<Rule>)
    requires |times| == |defaults|
    ensures Tracks(StartBoard(rules), InitialAll(defaults, times))
  {
    StartBoardIsZero(rules);
    assert forall t, r :: Gauge(StartBoard(rules), t, r) == 0 && !IsActive(InitialAll(defaults, times), t, r);
    assert forall t :: TypeTracks(StartBoard(rules), InitialAll(defaults, times), t);
  }

  lemma IncrementCounts(b: Board, r: string, count: int)
    requires OneReason(b)
    ensures var b' := Increment(b, r, count);
      && OneReason(b') && (forall t, q :: Gauge(b', t, q) == Gauge(b, t, q))
      && (forall q :: Counter(b', q) == if q == r then Wrap(Counter(b, r) + count) else Counter(b, q))
  {
    var b' := Increment(b, r, count);
    forall t, q ensures Gauge(b', t, q) == Gauge(b, t, q) { }
    assert forall t, q :: Gauge(b, t, q) == 0 || (Gauge(b, t, q) == 1 && t in b.lastReason && b.lastReason[t] == q);
    assert forall t, q :: Gauge(b', t, q) == 0 || (Gauge(b', t, q) == 1 && t in b'.lastReason && b'.lastReason[t] == q);
  }
}

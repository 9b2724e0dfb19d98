/** The metric store of the tests and the manager of problem gauges and counters on top of it. */
module ProblemMetrics {
  import opened Int64

  type Labels = map<string, string>

  datatype Aggregation = LastValue | Sum | OtherAggregation

  datatype Entry = Entry(labels: Labels, value: int)

  // ----- the label store -----

  /** The value under exactly these labels; a metric that was never recorded reads as 0. */
  function ValueOf(entries: seq<Entry>, labels: Labels): int {
    if entries == [] then 0
    else if entries[0].labels == labels then entries[0].value
    else ValueOf(entries[1..], labels)
  }

  lemma {:induction false} ValueAt(entries: seq<Entry>, n: nat)
    requires n < |entries| && forall k :: 0 <= k < n ==> entries[k].labels != entries[n].labels
    ensures ValueOf(entries, entries[n].labels) == entries[n].value
  {
    if n > 0 {
      ValueAt(entries[1..], n - 1);
    }
  }

  /** Writing the first entry with some labels changes what is read under those labels only. */
  lemma {:induction false} WriteAt(entries: seq<Entry>, n: nat, v: int, labels: Labels)
    requires n < |entries| && forall k :: 0 <= k < n ==> entries[k].labels != entries[n].labels
    ensures ValueOf(entries[n := entries[n].(value := v)], labels) ==
            if labels == entries[n].labels then v else ValueOf(entries, labels)
  {
    var after := entries[n := entries[n].(value := v)];
    if n > 0 {
      WriteAt(entries[1..], n - 1, v, labels);
      assert after[1..] == entries[1..][n - 1 := entries[n].(value := v)];
    }
  }

  lemma {:induction false} AppendZero(entries: seq<Entry>, added: Labels, labels: Labels)
    ensures ValueOf(entries + [Entry(added, 0)], labels) == ValueOf(entries, labels)
  {
    if entries != [] {
      AppendZero(entries[1..], added, labels);
      assert (entries + [Entry(added, 0)])[1..] == entries[1..] + [Entry(added, 0)];
    }
  }

  class Int64Metric {
    const aggregation: Aggregation
    const allowedTags: set<string>
    var metrics: seq<Entry>

    ghost function Value(labels: Labels): int
      reads this
    {
      ValueOf(metrics, labels)
    }

    constructor (aggregation: Aggregation, tagNames: set<string>)
      ensures this.aggregation == aggregation && allowedTags == tagNames && metrics == []
    {
      this.aggregation := aggregation;
      allowedTags := tagNames;
      metrics := [];
    }

    /** Records under exactly the given labels, or changes no value and reports an error. */
    method Record(tags: Labels, measurement: int) returns (ok: bool)
      modifies this
      ensures ok <==> tags.Keys <= allowedTags && aggregation != OtherAggregation
      ensures forall l :: Value(l) == (if !ok || l != tags then old(Value(l))
                                       else if aggregation == LastValue then measurement
                                       else Wrap(old(Value(l)) + measurement))
    {
      if !(tags.Keys <= allowedTags) {
        return false;
      }
      var n := 0;
      while n < |metrics| && metrics[n].labels != tags
        invariant n <= |metrics| && metrics == old(metrics)
        invariant forall k :: 0 <= k < n ==> metrics[k].labels != tags
      {
        n := n + 1;
      }
      if n == |metrics| {
        forall l ensures ValueOf(metrics + [Entry(tags, 0)], l) == ValueOf(metrics, l) { AppendZero(metrics, tags, l); }
        metrics := metrics + [Entry(tags, 0)];
      }
      assert metrics[n].labels == tags && forall l :: Value(l) == old(Value(l));
      if aggregation == OtherAggregation {
        return false;
      }
      var v := if aggregation == LastValue then measurement else Wrap(metrics[n].value + measurement);
      ValueAt(metrics, n);
      forall l ensures ValueOf(metrics[n := metrics[n].(value := v)], l) == if l == tags then v else ValueOf(metrics, l) {
        WriteAt(metrics, n, v, l);
      }
      metrics := metrics[n := metrics[n].(value := v)];
      ok := true;
    }
  }

  // ----- gauges and counters, as a board of values -----

  /** What the metrics show, and for every problem type the reason that was set last. */
  datatype Board = Board(gauge: map<(string, string), int>, counter: map<string, int>, lastReason: map<string, string>)

  const BLANK := Board(map[], map[], map[])

  function Gauge(b: Board, t: string, r: string): int {
    if (t, r) in b.gauge then b.gauge[(t, r)] else 0
  }

  function Counter(b: Board, r: string): int {
    if r in b.counter then b.counter[r] else 0
  }

  /** `SetProblemGauge`; either of its two records may fail without effect. */
  function SetGauge(b: Board, t: string, r: string, value: bool, failClear: bool, failSet: bool): Board {
    if t in b.lastReason && failClear then b
    else
      var cleared := if t in b.lastReason then b.gauge[(t, b.lastReason[t]) := 0] else b.gauge;
      Board(if failSet then cleared else cleared[(t, r) := if value then 1 else 0], b.counter, b.lastReason[t := r])
  }

  function Increment(b: Board, r: string, count: int): Board {
    b.(counter := b.counter[r := Wrap(Counter(b, r) + count)])
  }

  /** A gauge is 0 or 1, and 1 only for the reason that was set last for its type. */
  ghost predicate OneReason(b: Board) {
    forall t, r :: Gauge(b, t, r) == 0 || (Gauge(b, t, r) == 1 && t in b.lastReason && b.lastReason[t] == r)
  }

  /** What a monitor asks of the manager. */
  datatype Op = Count(reason: string, n: int) | Show(typ: string, reason: string, on: bool)

  /** Which of the records of an operation fail: the only or the clearing one, and the setting one. */
  datatype Fault = Fault(first: bool, second: bool)

  const NO_FAULT := Fault(false, false)

  function Clean(n: nat): (r: seq<Fault>)
    ensures |r| == n
  {
    seq(n, _ => NO_FAULT)
  }

  function Perform(b: Board, op: Op, fault: Fault): Board {
    match op
    case Count(r, n) => if fault.first then b else Increment(b, r, n)
    case Show(t, r, on) => SetGauge(b, t, r, on, fault.first, fault.second)
  }

  /** The board after some operations, each with the records that fail in it. */
  function PerformAll(b: Board, ops: seq<Op>, faults: seq<Fault>): Board
    requires |faults| == |ops|
  {
    if ops == [] then b
    else Perform(PerformAll(b, ops[..|ops| - 1], faults[..|ops| - 1]), ops[|ops| - 1], faults[|ops| - 1])
  }

  lemma {:induction false} PerformNext(b: Board, ops: seq<Op>, faults: seq<Fault>, op: Op, fault: Fault)
    requires |faults| == |ops|
    ensures PerformAll(b, ops + [op], faults + [fault]) == Perform(PerformAll(b, ops, faults), op, fault)
  {
    assert (ops + [op])[..|ops|] == ops && (faults + [fault])[..|ops|] == faults;
  }

  lemma {:induction false} PerformAppends(b: Board, a: seq<Op>, fa: seq<Fault>, c: seq<Op>, fc: seq<Fault>)
    requires |fa| == |a| && |fc| == |c|
    ensures PerformAll(b, a + c, fa + fc) == PerformAll(PerformAll(b, a, fa), c, fc)
  {
    if c == [] {
      assert a + c == a && fa + fc == fa;
    } else {
      var n := |c| - 1;
      PerformAppends(b, a, fa, c[..n], fc[..n]);
      PerformNext(b, a + c[..n], fa + fc[..n], c[n], fc[n]);
      assert (a + c[..n]) + [c[n]] == a + c && (fa + fc[..n]) + [fc[n]] == fa + fc;
    }
  }

  lemma {:induction false} PerformSplits(b: Board, a: seq<Op>, c: seq<Op>, faults: seq<Fault>)
    requires |faults| == |a| + |c|
    ensures PerformAll(b, a + c, faults) == PerformAll(PerformAll(b, a, faults[..|a|]), c, faults[|a|..])
  {
    assert faults[..|a|] + faults[|a|..] == faults;
    PerformAppends(b, a, faults[..|a|], c, faults[|a|..]);
  }

  lemma {:induction false} PerformKeepsOneReason(b: Board, ops: seq<Op>, faults: seq<Fault>)
    requires |faults| == |ops| && OneReason(b)
    ensures OneReason(PerformAll(b, ops, faults))
  {
    if ops != [] {
      var n := |ops| - 1;
      var before, op := PerformAll(b, ops[..n], faults[..n]), ops[n];
      PerformKeepsOneReason(b, ops[..n], faults[..n]);
      if op.Show? {
        SetGaugeKeepsOneReason(before, op.typ, op.reason, op.on, faults[n].first, faults[n].second);
      } else {
        OnlyGaugesMatter(before, Perform(before, op, faults[n]));
      }
    }
  }

  lemma OnlyGaugesMatter(b: Board, b': Board)
    requires OneReason(b) && b'.gauge == b.gauge && b'.lastReason == b.lastReason
    ensures OneReason(b') && forall t, r :: Gauge(b', t, r) == Gauge(b, t, r)
  {
    assert forall t, r :: Gauge(b', t, r) == Gauge(b, t, r);
  }

  /** Whatever is counted and set, and whichever records fail, at most one reason per problem type is 1. */
  lemma {:induction false} AtMostOneReason(ops: seq<Op>, faults: seq<Fault>, t: string, r: string, q: string)
    requires |faults| == |ops|
    ensures var b := PerformAll(BLANK, ops, faults);
      && OneReason(b)
      && (Gauge(b, t, r) == 1 == Gauge(b, t, q) ==> r == q)
  {
    PerformKeepsOneReason(BLANK, ops, faults);
  }

  lemma SetGaugeKeepsOneReason(b: Board, t: string, r: string, value: bool, failClear: bool, failSet: bool)
    requires OneReason(b)
    ensures OneReason(SetGauge(b, t, r, value, failClear, failSet))
  {
    var b' := SetGauge(b, t, r, value, failClear, failSet);
    forall t', r'
      ensures Gauge(b', t', r') == 0 || (Gauge(b', t', r') == 1 && t' in b'.lastReason && b'.lastReason[t'] == r')
    {
      assert Gauge(b, t', r') == 0 || (Gauge(b, t', r') == 1 && t' in b.lastReason && b.lastReason[t'] == r');
    }
  }

  /** A call whose records succeed sets the one gauge of its type and clears all the others. */
  lemma SetGaugeSets(b: Board, t: string, r: string, value: bool)
    requires OneReason(b)
    ensures var b' := SetGauge(b, t, r, value, false, false);
      && OneReason(b')
      && (forall t', r' :: Gauge(b', t', r') ==
            (if t' != t then Gauge(b, t', r') else if value && r' == r then 1 else 0))
  {
    SetGaugeKeepsOneReason(b, t, r, value, false, false);
  }

  function GaugeTags(t: string, r: string): Labels { map["type" := t, "reason" := r] }

  function CounterTags(r: string): Labels { map["reason" := r] }

  lemma GaugeTagsDiffer(t: string, r: string, t': string, r': string)
    ensures GaugeTags(t, r) == GaugeTags(t', r') ==> t == t' && r == r'
  {
    assert GaugeTags(t, r)["type"] == t && GaugeTags(t, r)["reason"] == r;
    assert GaugeTags(t', r')["type"] == t' && GaugeTags(t', r')["reason"] == r';
  }

  class ProblemMetricsManager {
    const problemCounter: Int64Metric
    const problemGauge: Int64Metric
    var problemTypeToReason: map<string, string>

    /** The manager and its two metrics show the board `b`. */
    ghost predicate Shows(b: Board)
      reads this, problemCounter, problemGauge
    {
      && problemCounter != problemGauge
      && problemCounter.aggregation == Sum && problemCounter.allowedTags == {"reason"}
      && problemGauge.aggregation == LastValue && problemGauge.allowedTags == {"type", "reason"}
      && problemTypeToReason == b.lastReason
      && (forall t, r :: problemGauge.Value(GaugeTags(t, r)) == Gauge(b, t, r))
      && (forall r :: problemCounter.Value(CounterTags(r)) == Counter(b, r))
    }

    constructor ()
      ensures Shows(BLANK) && fresh(problemCounter) && fresh(problemGauge)
    {
      problemCounter := new Int64Metric(Sum, {"reason"});
      problemGauge := new Int64Metric(LastValue, {"type", "reason"});
      problemTypeToReason := map[];
    }

    method IncrementProblemCounter(reason: string, count: int, fail: bool, ghost b: Board) returns (ok: bool)
      requires Shows(b)
      modifies problemCounter
      ensures ok == !fail && Shows(Perform(b, Count(reason, count), Fault(fail, false)))
      ensures var labels := map["reason" := reason];
        ok ==> problemCounter.Value(labels) == Wrap(old(problemCounter.Value(labels)) + count)
    {
      if fail {
        return false;
      }
      ok := problemCounter.Record(CounterTags(reason), count);
      forall r ensures problemCounter.Value(CounterTags(r)) == Counter(Increment(b, reason, count), r) {
        assert CounterTags(r)["reason"] == r && CounterTags(reason)["reason"] == reason;
      }
    }

    method SetProblemGauge(problemType: string, reason: string, value: bool, failClear: bool, failSet: bool, ghost b: Board)
      returns (ok: bool)
      requires Shows(b)
      modifies this, problemGauge
      ensures Shows(Perform(b, Show(problemType, reason, value), Fault(failClear, failSet)))
      ensures ok <==> !(problemType in b.lastReason && failClear) && !failSet
      ensures problemTypeToReason ==
        if problemType in old(problemTypeToReason) && failClear then old(problemTypeToReason)
        else old(problemTypeToReason)[problemType := reason]
      ensures ok ==> problemGauge.Value(map["type" := problemType, "reason" := reason]) == if value then 1 else 0
    {
      ghost var cleared := b;
      if problemType in problemTypeToReason {
        ok := RecordGauge(problemType, problemTypeToReason[problemType], 0, failClear, b);
        if !ok {
          return;
        }
        cleared := b.(gauge := b.gauge[(problemType, b.lastReason[problemType]) := 0]);
      }
      problemTypeToReason := problemTypeToReason[problemType := reason];
      ok := RecordGauge(problemType, reason, if value then 1 else 0, failSet,
                        cleared.(lastReason := cleared.lastReason[problemType := reason]));
      assert GaugeTags(problemType, reason) == map["type" := problemType, "reason" := reason];
      assert ok ==> Gauge(SetGauge(b, problemType, reason, value, failClear, failSet), problemType, reason) == if value then 1 else 0;
    }

    /** One record of the gauge metric, which the surroundings may let fail. */
    method RecordGauge(t: string, r: string, v: int, fail: bool, ghost b: Board) returns (ok: bool)
      requires Shows(b)
      modifies problemGauge
      ensures ok == !fail
      ensures Shows(if fail then b else b.(gauge := b.gauge[(t, r) := v]))
    {
      if fail {
        return false;
      }
      ok := problemGauge.Record(GaugeTags(t, r), v);
      forall t', r' ensures problemGauge.Value(GaugeTags(t', r')) == Gauge(b.(gauge := b.gauge[(t, r) := v]), t', r') {
        GaugeTagsDiffer(t, r, t', r');
      }
    }
  }
}

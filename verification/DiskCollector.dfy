/** The disk collector's counters: how raw 64-bit values become recorded differences. */
module DiskCollectors {
  import opened Int64
  import opened Options

  datatype Kind = IoTime | WeightedIO
                | ReadCount | MergedReadCount | ReadBytes | ReadTime
                | WriteCount | MergedWriteCount | WriteBytes | WriteTime

  datatype Metric = MIoTime | MWeightedIO | MOpsCount | MMergedOpsCount | MOpsBytes | MOpsTime

  type Uint64 = x: int | 0 <= x < TWO_64

  datatype Stat = Stat(ioTime: Uint64, weightedIO: Uint64,
                       readCount: Uint64, mergedReadCount: Uint64, readBytes: Uint64, readTime: Uint64,
                       writeCount: Uint64, mergedWriteCount: Uint64, writeBytes: Uint64, writeTime: Uint64)

  function Raw(s: Stat, k: Kind): Uint64 {
    match k
    case IoTime => s.ioTime
    case WeightedIO => s.weightedIO
    case ReadCount => s.readCount
    case MergedReadCount => s.mergedReadCount
    case ReadBytes => s.readBytes
    case ReadTime => s.readTime
    case WriteCount => s.writeCount
    case MergedWriteCount => s.mergedWriteCount
    case WriteBytes => s.writeBytes
    case WriteTime => s.writeTime
  }

  /** The direction label of a record; the first two metrics have none. */
  datatype Direction = Both | Read | Write

  /** The metric and the direction under which a counter is recorded. */
  function LabelOf(k: Kind): (Metric, Direction) {
    match k
    case IoTime => (MIoTime, Both)
    case WeightedIO => (MWeightedIO, Both)
    case ReadCount => (MOpsCount, Read)
    case MergedReadCount => (MMergedOpsCount, Read)
    case ReadBytes => (MOpsBytes, Read)
    case ReadTime => (MOpsTime, Read)
    case WriteCount => (MOpsCount, Write)
    case MergedWriteCount => (MMergedOpsCount, Write)
    case WriteBytes => (MOpsBytes, Write)
    case WriteTime => (MOpsTime, Write)
  }

  lemma LabelsDiffer(k: Kind, l: Kind)
    ensures LabelOf(k) == LabelOf(l) ==> k == l
  {
  }

  function MetricOf(k: Kind): Metric { LabelOf(k).0 }

  /** The last raw value of every counter and device, and what was recorded under every label, in order. */
  datatype Book = Book(last: map<(Kind, string), Uint64>, recorded: map<(Metric, Direction, string), seq<int>>)

  const EMPTY := Book(map[], map[])

  function Last(b: Book, k: Kind, d: string): Uint64 {
    if (k, d) in b.last then b.last[(k, d)] else 0
  }

  function Series(b: Book, m: Metric, dir: Direction, d: string): seq<int> {
    if (m, dir, d) in b.recorded then b.recorded[(m, dir, d)] else []
  }

  function Recorded(b: Book, k: Kind, d: string): seq<int> {
    Series(b, LabelOf(k).0, LabelOf(k).1, d)
  }

  /** One counter of one device: record the difference, remember the value. The first two
      counters are remembered even when their metric is off. */
  function RecordOne(b: Book, metrics: set<Metric>, k: Kind, d: string, raw: Uint64): Book {
    var on := MetricOf(k) in metrics;
    Book(if Remembered(metrics, k) then b.last[(k, d) := raw] else b.last,
         if on then b.recorded[(LabelOf(k).0, LabelOf(k).1, d) := Recorded(b, k, d) + [Wrap(raw - Last(b, k, d))]]
         else b.recorded)
  }

  predicate Remembered(metrics: set<Metric>, k: Kind) {
    MetricOf(k) in metrics || k == IoTime || k == WeightedIO
  }

  lemma RecordOneAt(b: Book, metrics: set<Metric>, k: Kind, d: string, raw: Uint64, l: Kind, e: string)
    ensures var b' := RecordOne(b, metrics, k, d, raw);
      if (l, e) != (k, d) then Last(b', l, e) == Last(b, l, e) && Recorded(b', l, e) == Recorded(b, l, e)
      else && Last(b', l, e) == (if Remembered(metrics, k) then raw else Last(b, k, d))
           && Recorded(b', l, e) == Recorded(b, k, d) + (if MetricOf(k) in metrics then [Wrap(raw - Last(b, k, d))] else [])
  {
    LabelsDiffer(k, l);
  }

  /** The place of a counter in the order in which the collector goes through them. */
  function Place(k: Kind): nat {
    match k
    case IoTime => 0
    case WeightedIO => 1
    case ReadCount => 2
    case MergedReadCount => 3
    case ReadBytes => 4
    case ReadTime => 5
    case WriteCount => 6
    case MergedWriteCount => 7
    case WriteBytes => 8
    case WriteTime => 9
  }

  ghost predicate SampledAt(before: Book, metrics: set<Metric>, s: Stat, after: Book, k: Kind, d: string) {
    && Last(after, k, d) == (if Remembered(metrics, k) then Raw(s, k) else Last(before, k, d))
    && Recorded(after, k, d) == (if MetricOf(k) in metrics then Recorded(before, k, d) + [Wrap(Raw(s, k) - Last(before, k, d))]
                                 else Recorded(before, k, d))
  }

  ghost predicate SameAt(before: Book, after: Book, k: Kind, d: string) {
    Last(after, k, d) == Last(before, k, d) && Recorded(after, k, d) == Recorded(before, k, d)
  }

  /** The counters of device `d` up to a place are recorded, nothing else is changed. */
  ghost predicate SampledUpTo(before: Book, metrics: set<Metric>, d: string, s: Stat, place: nat, after: Book) {
    forall k, e :: UpToAt(before, metrics, d, s, place, after, k, e)
  }

  ghost predicate UpToAt(before: Book, metrics: set<Metric>, d: string, s: Stat, place: nat, after: Book, k: Kind, e: string) {
    if e == d && Place(k) < place then SampledAt(before, metrics, s, after, k, e) else SameAt(before, after, k, e)
  }

  /** What one sample does, read counter by counter and device by device. */
  ghost predicate Samples(before: Book, metrics: set<Metric>, stats: map<string, Stat>, after: Book) {
    forall k, d :: SamplesAt(before, metrics, stats, after, k, d)
  }

  ghost predicate SamplesAt(before: Book, metrics: set<Metric>, stats: map<string, Stat>, after: Book, k: Kind, d: string) {
    if d in stats then SampledAt(before, metrics, stats[d], after, k, d) else SameAt(before, after, k, d)
  }

  class DiskCollector {
    const metrics: set<Metric>
    var book: Book

    constructor (metrics: set<Metric>)
      ensures this.metrics == metrics && book == EMPTY
    {
      this.metrics := metrics;
      book := EMPTY;
    }

    /** Goes through the devices in whatever order the map gives them. */
    method RecordIOCounters(stats: map<string, Stat>)
      modifies this
      ensures Samples(old(book), metrics, stats, book)
    {
      var rest := stats.Keys;
      while rest != {}
        invariant rest <= stats.Keys && Samples(old(book), metrics, stats - rest, book)
        decreases rest
      {
        var d :| d in rest;
        ghost var before := book;
        RecordDevice(d, stats[d]);
        OneMoreDevice(old(book), metrics, stats - rest, before, d, stats[d], book);
        assert (stats - rest)[d := stats[d]] == stats - (rest - {d});
        rest := rest - {d};
      }
      assert stats - rest == stats;
    }

    method RecordDevice(d: string, s: Stat)
      modifies this
      ensures SampledUpTo(old(book), metrics, d, s, 10, book)
    {
      ghost var before := book;
      Record(IoTime, d, s.ioTime, before, s);
      Record(WeightedIO, d, s.weightedIO, before, s);
      Record(ReadCount, d, s.readCount, before, s);
      Record(MergedReadCount, d, s.mergedReadCount, before, s);
      Record(ReadBytes, d, s.readBytes, before, s);
      Record(ReadTime, d, s.readTime, before, s);
      Record(WriteCount, d, s.writeCount, before, s);
      Record(MergedWriteCount, d, s.mergedWriteCount, before, s);
      Record(WriteBytes, d, s.writeBytes, before, s);
      Record(WriteTime, d, s.writeTime, before, s);
    }

    method Record(k: Kind, d: string, raw: Uint64, ghost before: Book, ghost s: Stat)
      requires raw == Raw(s, k) && SampledUpTo(before, metrics, d, s, Place(k), book)
      modifies this
      ensures SampledUpTo(before, metrics, d, s, Place(k) + 1, book)
    {
      OneMoreCounter(before, metrics, d, s, k, book);
      book := RecordOne(book, metrics, k, d, raw);
    }
  }

  lemma OneMoreCounter(before: Book, metrics: set<Metric>, d: string, s: Stat, k: Kind, now: Book)
    requires SampledUpTo(before, metrics, d, s, Place(k), now)
    ensures SampledUpTo(before, metrics, d, s, Place(k) + 1, RecordOne(now, metrics, k, d, Raw(s, k)))
  {
    var after, place := RecordOne(now, metrics, k, d, Raw(s, k)), Place(k) + 1;
    forall l, e ensures UpToAt(before, metrics, d, s, place, after, l, e) {
      RecordOneAt(now, metrics, k, d, Raw(s, k), l, e);
      assert UpToAt(before, metrics, d, s, Place(k), now, l, e);
    }
  }

  lemma OneMoreDevice(start: Book, metrics: set<Metric>, stats: map<string, Stat>, now: Book, d: string, s: Stat, after: Book)
    requires d !in stats && Samples(start, metrics, stats, now) && SampledUpTo(now, metrics, d, s, 10, after)
    ensures Samples(start, metrics, stats[d := s], after)
  {
    var more := stats[d := s];
    forall k, e ensures SamplesAt(start, metrics, more, after, k, e) {
      assert SamplesAt(start, metrics, stats, now, k, e) && UpToAt(now, metrics, d, s, 10, after, k, e);
    }
  }

  // ----- all samples -----

  ghost predicate Runs(books: seq<Book>, metrics: set<Metric>, samples: seq<map<string, Stat>>) {
    && |books| == |samples| + 1 && books[0] == EMPTY
    && forall n :: 0 <= n < |samples| ==> Follows(books, metrics, samples, n)
  }

  ghost predicate Follows(books: seq<Book>, metrics: set<Metric>, samples: seq<map<string, Stat>>, n: nat)
    requires n < |samples| && |books| == |samples| + 1
  {
    Samples(books[n], metrics, samples[n], books[n + 1])
  }

  /** The raw values of a counter in those samples in which the device is there. */
  function Values(samples: seq<map<string, Stat>>, k: Kind, d: string): (r: seq<Uint64>) {
    if samples == [] then []
    else
      var s := samples[|samples| - 1];
      Values(samples[..|samples| - 1], k, d) + if d in s then [Raw(s[d], k)] else []
  }

  function LastOf(vs: seq<Uint64>): Uint64 { if vs == [] then 0 else vs[|vs| - 1] }

  function Deltas(vs: seq<Uint64>): (r: seq<int>) {
    if vs == [] then []
    else Deltas(vs[..|vs| - 1]) + [Wrap(vs[|vs| - 1] - LastOf(vs[..|vs| - 1]))]
  }

  lemma {:induction false} ValuesSnoc(samples: seq<map<string, Stat>>, s: map<string, Stat>, k: Kind, d: string)
    ensures var vs, vs' := Values(samples, k, d), Values(samples + [s], k, d);
      if d !in s then vs' == vs
      else LastOf(vs') == Raw(s[d], k) && Deltas(vs') == Deltas(vs) + [Wrap(Raw(s[d], k) - LastOf(vs))]
  {
    assert (samples + [s])[..|samples|] == samples;
    var vs := Values(samples, k, d);
    if d in s {
      assert (vs + [Raw(s[d], k)])[..|vs|] == vs;
    } else {
      assert vs + [] == vs;
    }
  }

  lemma {:induction false} OneSample(before: Book, metrics: set<Metric>, samples: seq<map<string, Stat>>, s: map<string, Stat>,
                                     after: Book, k: Kind, d: string)
    requires MetricOf(k) in metrics && Samples(before, metrics, s, after)
    requires Last(before, k, d) == LastOf(Values(samples, k, d)) && Recorded(before, k, d) == Deltas(Values(samples, k, d))
    ensures Last(after, k, d) == LastOf(Values(samples + [s], k, d))
    ensures Recorded(after, k, d) == Deltas(Values(samples + [s], k, d))
  {
    SampleOf(before, metrics, s, after, k, d);
    ValuesSnoc(samples, s, k, d);
  }

  lemma SampleOf(before: Book, metrics: set<Metric>, s: map<string, Stat>, after: Book, k: Kind, d: string)
    requires MetricOf(k) in metrics && Samples(before, metrics, s, after)
    ensures Last(after, k, d) == if d in s then Raw(s[d], k) else Last(before, k, d)
    ensures Recorded(after, k, d) == if d in s then Recorded(before, k, d) + [Wrap(Raw(s[d], k) - Last(before, k, d))]
                                     else Recorded(before, k, d)
  {
    assert SamplesAt(before, metrics, s, after, k, d);
  }

  /** Whatever devices come and go, a counter is remembered and recorded as if its device were alone. */
  lemma {:induction false} RecordedAreDeltas(books: seq<Book>, metrics: set<Metric>, samples: seq<map<string, Stat>>,
                                             n: nat, k: Kind, d: string)
    requires Runs(books, metrics, samples) && n <= |samples| && MetricOf(k) in metrics
    ensures Last(books[n], k, d) == LastOf(Values(samples[..n], k, d))
    ensures Recorded(books[n], k, d) == Deltas(Values(samples[..n], k, d))
  {
    if n > 0 {
      RecordedAreDeltas(books, metrics, samples, n - 1, k, d);
      assert Follows(books, metrics, samples, n - 1);
      OneSample(books[n - 1], metrics, samples[..n - 1], samples[n - 1], books[n], k, d);
      assert samples[..n] == samples[..n - 1] + [samples[n - 1]];
    }
  }

  function Total(s: seq<int>): (r: int) {
    if s == [] then 0 else Total(s[..|s| - 1]) + s[|s| - 1]
  }

  /** How often the value jumped up by 2^63 or more, less how often it fell by more than 2^63. */
  function FarJumps(vs: seq<Uint64>): (r: int) {
    if vs == [] then 0
    else
      var diff := vs[|vs| - 1] - LastOf(vs[..|vs| - 1]);
      FarJumps(vs[..|vs| - 1]) + if diff >= TWO_63 then 1 else if diff < -TWO_63 then -1 else 0
  }

  lemma {:induction false} DeltasTotal(vs: seq<Uint64>)
    ensures Total(Deltas(vs)) == LastOf(vs) - FarJumps(vs) * TWO_64
  {
    if vs != [] {
      var n := |vs| - 1;
      DeltasTotal(vs[..n]);
      assert Deltas(vs)[..n] == Deltas(vs[..n]) by { DeltasLength(vs[..n]); }
      DeltasLength(vs);
    }
  }

  lemma {:induction false} DeltasLength(vs: seq<Uint64>)
    ensures |Deltas(vs)| == |vs|
  {
    if vs != [] { DeltasLength(vs[..|vs| - 1]); }
  }

  /** The recorded differences of every counter and device add up to its last raw value modulo 2^64, so
      a 64-bit sum shows that value; they add up to it exactly when far jumps up and down balance. */
  lemma {:induction false} DifferencesAddUp(books: seq<Book>, metrics: set<Metric>, samples: seq<map<string, Stat>>,
                                            k: Kind, d: string)
    requires Runs(books, metrics, samples) && MetricOf(k) in metrics
    ensures var total, last := Total(Recorded(books[|samples|], k, d)), LastOf(Values(samples, k, d));
      && total % TWO_64 == last
      && Wrap(total) == Wrap(last)
      && (total == last <==> FarJumps(Values(samples, k, d)) == 0)
  {
    RecordedAreDeltas(books, metrics, samples, |samples|, k, d);
    assert samples[..|samples|] == samples;
    DeltasAddUp(Values(samples, k, d));
  }

  /** Nothing is ever recorded for a metric that is off. */
  lemma {:induction false} OffRecordsNothing(books: seq<Book>, metrics: set<Metric>, samples: seq<map<string, Stat>>,
                                             n: nat, k: Kind, d: string)
    requires Runs(books, metrics, samples) && n <= |samples| && MetricOf(k) !in metrics
    ensures Series(books[n], LabelOf(k).0, LabelOf(k).1, d) == []
  {
    if n > 0 {
      OffRecordsNothing(books, metrics, samples, n - 1, k, d);
      assert Follows(books, metrics, samples, n - 1);
      assert SamplesAt(books[n - 1], metrics, samples[n - 1], books[n], k, d);
    }
  }

  /** The last sample of a device, if there was one. */
  function LastStat(samples: seq<map<string, Stat>>, d: string): Option<Stat> {
    if samples == [] then None
    else
      var s := samples[|samples| - 1];
      if d in s then Some(s[d]) else LastStat(samples[..|samples| - 1], d)
  }

  lemma {:induction false} LastValueIsLastStat(samples: seq<map<string, Stat>>, k: Kind, d: string)
    ensures LastStat(samples, d).Some? ==> LastOf(Values(samples, k, d)) == Raw(LastStat(samples, d).value, k)
  {
    if samples != [] {
      var n := |samples| - 1;
      var vs := Values(samples[..n], k, d);
      LastValueIsLastStat(samples[..n], k, d);
      assert vs + [] == vs;
    }
  }

  lemma {:induction false} SeriesAddsUp(books: seq<Book>, metrics: set<Metric>, samples: seq<map<string, Stat>>, k: Kind, d: string)
    requires Runs(books, metrics, samples) && MetricOf(k) in metrics && LastStat(samples, d).Some?
    ensures Total(Recorded(books[|samples|], k, d)) % TWO_64 == Raw(LastStat(samples, d).value, k)
  {
    DifferencesAddUp(books, metrics, samples, k, d);
    LastValueIsLastStat(samples, k, d);
  }

  /** Counter by counter: what was recorded for a device under each metric and direction sums, modulo 2^64,
      to that counter of the device's last sample. */
  lemma {:induction false} EverySeriesAddsUp(books: seq<Book>, metrics: set<Metric>, samples: seq<map<string, Stat>>, d: string)
    requires Runs(books, metrics, samples) && LastStat(samples, d).Some?
    ensures var b, s := books[|samples|], LastStat(samples, d).value;
      && (MIoTime in metrics ==> Total(Series(b, MIoTime, Both, d)) % TWO_64 == s.ioTime)
      && (MWeightedIO in metrics ==> Total(Series(b, MWeightedIO, Both, d)) % TWO_64 == s.weightedIO)
      && (MOpsCount in metrics ==> Total(Series(b, MOpsCount, Read, d)) % TWO_64 == s.readCount)
      && (MMergedOpsCount in metrics ==> Total(Series(b, MMergedOpsCount, Read, d)) % TWO_64 == s.mergedReadCount)
      && (MOpsBytes in metrics ==> Total(Series(b, MOpsBytes, Read, d)) % TWO_64 == s.readBytes)
      && (MOpsTime in metrics ==> Total(Series(b, MOpsTime, Read, d)) % TWO_64 == s.readTime)
      && (MOpsCount in metrics ==> Total(Series(b, MOpsCount, Write, d)) % TWO_64 == s.writeCount)
      && (MMergedOpsCount in metrics ==> Total(Series(b, MMergedOpsCount, Write, d)) % TWO_64 == s.mergedWriteCount)
      && (MOpsBytes in metrics ==> Total(Series(b, MOpsBytes, Write, d)) % TWO_64 == s.writeBytes)
      && (MOpsTime in metrics ==> Total(Series(b, MOpsTime, Write, d)) % TWO_64 == s.writeTime)
  {
    if MIoTime in metrics { SeriesAddsUp(books, metrics, samples, IoTime, d); }
    if MWeightedIO in metrics { SeriesAddsUp(books, metrics, samples, WeightedIO, d); }
    if MOpsCount in metrics { SeriesAddsUp(books, metrics, samples, ReadCount, d); }
    if MMergedOpsCount in metrics { SeriesAddsUp(books, metrics, samples, MergedReadCount, d); }
    if MOpsBytes in metrics { SeriesAddsUp(books, metrics, samples, ReadBytes, d); }
    if MOpsTime in metrics { SeriesAddsUp(books, metrics, samples, ReadTime, d); }
    if MOpsCount in metrics { SeriesAddsUp(books, metrics, samples, WriteCount, d); }
    if MMergedOpsCount in metrics { SeriesAddsUp(books, metrics, samples, MergedWriteCount, d); }
    if MOpsBytes in metrics { SeriesAddsUp(books, metrics, samples, WriteBytes, d); }
    if MOpsTime in metrics { SeriesAddsUp(books, metrics, samples, WriteTime, d); }
  }

  lemma {:induction false} DeltasAddUp(vs: seq<Uint64>)
    ensures Total(Deltas(vs)) % TWO_64 == LastOf(vs)
    ensures Wrap(Total(Deltas(vs))) == Wrap(LastOf(vs))
    ensures Total(Deltas(vs)) == LastOf(vs) <==> FarJumps(vs) == 0
  {
    DeltasTotal(vs);
    WholeTurns(LastOf(vs), FarJumps(vs));
  }

  ghost predicate NearAt(vs: seq<Uint64>, n: nat)
    requires n < |vs|
  {
    -TWO_63 < vs[n] - LastOf(vs[..n]) < TWO_63
  }

  /** In particular they do when no two successive values are 2^63 or more apart. */
  lemma {:induction false} NearJumpsAreExact(vs: seq<Uint64>)
    requires forall n :: 0 <= n < |vs| ==> NearAt(vs, n)
    ensures FarJumps(vs) == 0
  {
    if vs != [] {
      var init := vs[..|vs| - 1];
      forall n | 0 <= n < |init| ensures NearAt(init, n) {
        assert NearAt(vs, n) && init[..n] == vs[..n];
      }
      NearJumpsAreExact(init);
      assert NearAt(vs, |vs| - 1);
    }
  }
}

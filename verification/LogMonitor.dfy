/** The log monitor: which rules a pushed log line fires, and how a firing changes the conditions. */
module LogMonitors {
  import opened Options
  import opened Regexp
  import opened LogBuffers
  import opened Conditions
  import opened Streaks
  import opened ProblemMetrics
  import opened MonitorMetrics

  datatype LogRule = LogRule(rule: Rule, pattern: SoundPattern, suffix: string)

  /** A rule that matched, with the time of the first matched line and the message made of all of them. */
  datatype Firing = Firing(rule: Rule, time: int, message: string)

  // ----- from log lines to firings -----

  function GenerateMessage(logs: seq<Log>, suffix: string): string {
    ConcatLogs(Messages(logs)) + if suffix == "" then "" else "; " + suffix
  }

  /** The firing of one rule after the last push, if its pattern matches. */
  function FiringOf(x: LogRule, max: nat, pushed: seq<Log>): Option<Firing> {
    var matched := ReferenceMatch(pushed, max, x.pattern.regexp);
    if matched == [] then None
    else Some(Firing(x.rule, matched[0].timestamp, GenerateMessage(matched, x.suffix)))
  }

  /** A rule fires exactly when its pattern matches somewhere in the text of the buffer and a line is held. */
  lemma {:induction false} RuleFiresOnMatch(x: LogRule, max: nat, pushed: seq<Log>)
    requires max >= 1
    ensures FiringOf(x, max, pushed).Some? <==>
            pushed != [] && exists i :: 0 <= i <= |Text(pushed, max)| && StartsAt(x.pattern.regexp, Text(pushed, max), i)
  {
    MatchIsFound(pushed, max, x.pattern.regexp);
    FoundIsSomewhere(x.pattern.regexp, Text(pushed, max));
  }

  lemma {:induction false} FoundIsSomewhere(re: Regex, t: string)
    ensures Search(re, t).Some? <==> exists i :: 0 <= i <= |t| && StartsAt(re, t, i)
  {
    if Search(re, t).Some? {
      SearchIsLeftmost(re, t, 0);
      assert StartsAt(re, t, Search(re, t).value);
    } else {
      forall i | 0 <= i <= |t| ensures !StartsAt(re, t, i) { SearchIsLeftmost(re, t, i); }
    }
  }

  lemma {:induction false} MatchIsFound(pushed: seq<Log>, max: nat, re: Regex)
    requires max >= 1
    ensures ReferenceMatch(pushed, max, re) != [] <==> pushed != [] && Search(re, Text(pushed, max)).Some?
  {
    ReferenceIsShortestCover(pushed, max, re);
  }

  /** Its firing has the time of the first line that the leftmost match reaches into, and the message of all
      the lines that it reaches into. */
  lemma {:induction false} FiringTellsTheMatch(x: LogRule, max: nat, pushed: seq<Log>) returns (start: nat, lines: seq<Log>)
    requires max >= 1 && FiringOf(x, max, pushed).Some?
    ensures IsLeftmost(x.pattern.regexp, Text(pushed, max), start)
    ensures IsShortestCover(Held(pushed, max), Text(pushed, max), start, lines) && lines != []
    ensures FiringOf(x, max, pushed).value ==
            Firing(x.rule, lines[0].timestamp, ConcatLogs(Messages(lines)) + if x.suffix == "" then "" else "; " + x.suffix)
  {
    var re := x.pattern.regexp;
    MatchIsFound(pushed, max, re);
    FoundIsLeftmost(re, Text(pushed, max));
    ReferenceIsShortestCover(pushed, max, re);
    start, lines := Search(re, Text(pushed, max)).value, ReferenceMatch(pushed, max, re);
  }

  ghost predicate IsLeftmost(re: Regex, t: string, start: nat) {
    start <= |t| && StartsAt(re, t, start) && forall i :: 0 <= i < start ==> !StartsAt(re, t, i)
  }

  lemma {:induction false} FoundIsLeftmost(re: Regex, t: string)
    requires Search(re, t).Some?
    ensures IsLeftmost(re, t, Search(re, t).value)
  {
    SearchIsLeftmost(re, t, 0);
    forall i | 0 <= i < Search(re, t).value ensures !StartsAt(re, t, i) { SearchIsLeftmost(re, t, i); }
  }

  /** Every rule's firing after the last push, in the order of the rules. */
  function Attempts(rules: seq<LogRule>, max: nat, pushed: seq<Log>): (r: seq<Option<Firing>>)
    ensures |r| == |rules|
  {
    seq(|rules|, k requires 0 <= k < |rules| => FiringOf(rules[k], max, pushed))
  }

  function Fired(attempts: seq<Option<Firing>>): (r: seq<Firing>) {
    if attempts == [] then []
    else
      var before := Fired(attempts[..|attempts| - 1]);
      match attempts[|attempts| - 1]
      case None => before
      case Some(f) => before + [f]
  }

  /** Every rule that fires has its firing in the list, at the place that the rules before it leave. */
  lemma {:induction false} FiredInOrder(attempts: seq<Option<Firing>>, k: nat)
    requires k < |attempts|
    ensures var so := Fired(attempts[..k]);
      && so <= Fired(attempts)
      && (attempts[k].Some? ==> |so| < |Fired(attempts)| && Fired(attempts)[|so|] == attempts[k].value)
  {
    var n := |attempts| - 1;
    if k < n {
      assert attempts[..n][..k] == attempts[..k] && attempts[..n][k] == attempts[k];
      FiredInOrder(attempts[..n], k);
    }
  }

  /** And nothing else is in it. */
  lemma {:induction false} FiredIsAll(attempts: seq<Option<Firing>>)
    ensures |Fired(attempts)| == |FiringRules(attempts)|
  {
    if attempts != [] {
      var n := |attempts| - 1;
      FiredIsAll(attempts[..n]);
      assert FiringRules(attempts) == if attempts[n].Some? then FiringRules(attempts[..n]) + {n} else FiringRules(attempts[..n]);
    }
  }

  function FiringRules(attempts: seq<Option<Firing>>): set<nat> {
    set i | 0 <= i < |attempts| && attempts[i].Some?
  }

  /** All firings of a stream of log lines, in the order in which the monitor reports them. */
  function FiredBy(rules: seq<LogRule>, max: nat, stream: seq<Log>): (r: seq<Firing>) {
    if stream == [] then []
    else FiredBy(rules, max, stream[..|stream| - 1]) + Fired(Attempts(rules, max, stream))
  }

  // ----- one firing -----

  /** `changed` is the index of the condition that the status is about. */
  datatype Outcome = Outcome(conditions: seq<Condition>, events: seq<Event>, changed: Option<nat>)

  function Generate(cs: seq<Condition>, f: Firing): (o: Outcome)
    ensures |o.conditions| == |cs|
    ensures o.changed.Some? ==> o.changed.value < |cs|
  {
    if f.rule.temporary then Outcome(cs, [Event(Warn, f.time, f.rule.reason, Plain(f.message))], None)
    else
      match FirstOf(cs, f.rule.condition)
      case None => Outcome(cs, [], None)
      case Some(i) =>
        var news := cs[i].status == False || cs[i].reason != f.rule.reason;
        var c := cs[i].(status := True, reason := f.rule.reason);
        var c' := if news then c.(transition := f.time, message := f.message) else c;
        Outcome(cs[i := c'], if news then [ConditionChangeEvent(c')] else [], Some(i))
  }

  // ----- every sequence of firings -----

  function After(cs: seq<Condition>, fs: seq<Firing>): (r: seq<Condition>)
    ensures |r| == |cs|
  {
    if fs == [] then cs else Generate(After(cs, fs[..|fs| - 1]), fs[|fs| - 1]).conditions
  }

  lemma {:induction false} AfterAppends(cs: seq<Condition>, a: seq<Firing>, b: seq<Firing>)
    ensures After(cs, a + b) == After(After(cs, a), b)
  {
    if b == [] {
      assert a + b == a;
    } else {
      assert (a + b)[..|a + b| - 1] == a + b[..|b| - 1];
      AfterAppends(cs, a, b[..|b| - 1]);
    }
  }

  predicate IsRelevant(t: string, f: Firing) {
    !f.rule.temporary && f.rule.condition == t
  }

  function Relevant(t: string, fs: seq<Firing>): (r: seq<Firing>) {
    if fs == [] then []
    else Relevant(t, fs[..|fs| - 1]) + if IsRelevant(t, fs[|fs| - 1]) then [fs[|fs| - 1]] else []
  }

  function Reasons(fs: seq<Firing>): (r: seq<string>)
    ensures |r| == |fs|
  {
    seq(|fs|, k requires 0 <= k < |fs| => fs[k].rule.reason)
  }

  /** What the firings so far make of a condition: true as soon as there was one, with the reason of
      the last and the time and message of the first in the current streak of that reason. */
  function Expected(d: Condition, time: int, rel: seq<Firing>): Condition {
    match Cause(None, Reasons(rel))
    case None => Initial(d, time)
    case Some(k) => Condition(d.typ, True, rel[k].time, rel[|rel| - 1].rule.reason, rel[k].message)
  }

  lemma {:induction false} ExpectedStep(d: Condition, time: int, rel: seq<Firing>, f: Firing)
    ensures var c := Expected(d, time, rel);
      && (c.status == False <==> rel == [])
      && (rel != [] ==> c.reason == rel[|rel| - 1].rule.reason)
      && Expected(d, time, rel + [f]) ==
           (if c.status == False || c.reason != f.rule.reason then Condition(d.typ, True, f.time, f.rule.reason, f.message) else c)
  {
    assert Reasons(rel + [f])[..|rel|] == Reasons(rel);
    CauseBeginsStreak(None, Reasons(rel));
  }

  lemma GenerateAt(cs: seq<Condition>, ds: seq<Condition>, f: Firing, i: nat)
    requires SameTypes(cs, ds) && i < |cs|
    ensures SameTypes(Generate(cs, f).conditions, ds)
    ensures var c, c' := cs[i], Generate(cs, f).conditions[i];
      if IsRelevant(c.typ, f) && FirstOf(ds, c.typ) == Some(i) then
        c' == if c.status == False || c.reason != f.rule.reason
              then Condition(c.typ, True, f.time, f.rule.reason, f.message)
              else c.(status := True)
      else c' == c
  {
    FirstOfSameTypes(cs, ds, f.rule.condition);
  }

  /** For every stream: the first condition of each type follows its firings as `Expected` says. */
  lemma {:induction false} ConditionFollowsFirings(defaults: seq<Condition>, times: seq<int>, fs: seq<Firing>, i: nat)
    requires |times| == |defaults| && i < |times|
    ensures var t := defaults[i].typ; var after := After(InitialAll(defaults, times), fs);
      && SameTypes(after, defaults)
      && after[i] == if FirstOf(defaults, t) == Some(i) then Expected(defaults[i], times[i], Relevant(t, fs))
                     else Initial(defaults[i], times[i])
  {
    if fs != [] {
      var n := |fs| - 1;
      var rel := Relevant(defaults[i].typ, fs[..n]);
      ConditionFollowsFirings(defaults, times, fs[..n], i);
      GenerateAt(After(InitialAll(defaults, times), fs[..n]), defaults, fs[n], i);
      assert rel + [] == rel;
      ExpectedStep(defaults[i], times[i], rel, fs[n]);
      CauseBeginsStreak(None, Reasons(rel));
    }
  }

  /** A condition becomes true with its first firing and stays true; its reason is the last one's, and
      its time and message are those of the firing that began the current run of that reason. */
  lemma {:induction false} ConditionLatches(defaults: seq<Condition>, times: seq<int>, fs: seq<Firing>, i: nat)
    requires |times| == |defaults| && i < |times| && FirstOf(defaults, defaults[i].typ) == Some(i)
    ensures var c := After(InitialAll(defaults, times), fs)[i]; var rel := Relevant(defaults[i].typ, fs);
      && (c.status == if rel == [] then False else True)
      && (rel != [] ==> exists k :: BeginsStreak(rel, k) && c.reason == rel[|rel| - 1].rule.reason &&
                                    c.transition == rel[k].time && c.message == rel[k].message)
  {
    ConditionFollowsFirings(defaults, times, fs, i);
    var rel := Relevant(defaults[i].typ, fs);
    var reasons := Reasons(rel);
    CauseBeginsStreak(None, reasons);
    if rel != [] {
      var k := Cause(None, reasons).value;
      assert forall j :: k <= j < |rel| ==> rel[j].rule.reason == reasons[j];
      assert k > 0 ==> rel[k - 1].rule.reason == reasons[k - 1];
      assert BeginsStreak(rel, k);
    }
  }

  /** From `k` on all firings have one reason, and the one before `k`, if any, has another. */
  ghost predicate BeginsStreak(rel: seq<Firing>, k: int) {
    && 0 <= k < |rel|
    && (forall j :: k <= j < |rel| ==> rel[j].rule.reason == rel[k].rule.reason)
    && (k > 0 ==> rel[k - 1].rule.reason != rel[k].rule.reason)
  }

  /** The events of the permanent firings about type `t`. */
  function ChangeEvents(t: string, cs: seq<Condition>, fs: seq<Firing>): (r: seq<Event>) {
    if fs == [] then []
    else
      var f := fs[|fs| - 1];
      ChangeEvents(t, cs, fs[..|fs| - 1]) +
      if IsRelevant(t, f) then Generate(After(cs, fs[..|fs| - 1]), f).events else []
  }

  /** There is one change event for every streak. */
  lemma {:induction false} OneEventPerStreak(defaults: seq<Condition>, times: seq<int>, fs: seq<Firing>, i: nat)
    requires |times| == |defaults| && i < |times| && FirstOf(defaults, defaults[i].typ) == Some(i)
    ensures var t := defaults[i].typ;
      |ChangeEvents(t, InitialAll(defaults, times), fs)| == Changes(None, Reasons(Relevant(t, fs)))
  {
    if fs != [] {
      var n, t := |fs| - 1, defaults[i].typ;
      var before, rel := After(InitialAll(defaults, times), fs[..n]), Relevant(t, fs[..n]);
      OneEventPerStreak(defaults, times, fs[..n], i);
      assert rel + [] == rel;
      if IsRelevant(t, fs[n]) {
        ConditionFollowsFirings(defaults, times, fs[..n], i);
        FirstOfSameTypes(before, defaults, t);
        ExpectedStep(defaults[i], times[i], rel, fs[n]);
        ReasonChanges(rel, fs[n]);
      }
    }
  }

  lemma {:induction false} ReasonChanges(rel: seq<Firing>, f: Firing)
    ensures Changes(None, Reasons(rel + [f])) == Changes(None, Reasons(rel)) +
            if rel != [] && rel[|rel| - 1].rule.reason == f.rule.reason then 0 else 1
  {
    var reasons := Reasons(rel + [f]);
    assert reasons[..|rel|] == Reasons(rel);
    assert rel != [] ==> reasons[|rel| - 1] == rel[|rel| - 1].rule.reason;
  }

  // ----- metrics -----

  function Emitted(cs: seq<Condition>, fs: seq<Firing>): (r: seq<Event>) {
    if fs == [] then [] else Emitted(cs, fs[..|fs| - 1]) + Generate(After(cs, fs[..|fs| - 1]), fs[|fs| - 1]).events
  }

  /** What a firing is reported as, by the firings before it: a temporary one as a warning of its own; a
      permanent one as a warning about its condition if it has one and the firing begins a streak. */
  lemma {:induction false} FiringIsReported(defaults: seq<Condition>, times: seq<int>, fs: seq<Firing>, f: Firing)
    requires |times| == |defaults|
    ensures var cs, rel, r, t := InitialAll(defaults, times), Relevant(f.rule.condition, fs), f.rule.reason, f.rule.condition;
      && (f.rule.temporary ==> After(cs, fs + [f]) == After(cs, fs))
      && Emitted(cs, fs + [f]) == Emitted(cs, fs) +
           if f.rule.temporary then [Event(Warn, f.time, r, Plain(f.message))]
           else if FirstOf(defaults, t).None? || (rel != [] && rel[|rel| - 1].rule.reason == r) then []
           else [Event(Warn, f.time, r, NowIs(t, True, r, f.message))]
  {
    var cs := InitialAll(defaults, times);
    assert (fs + [f])[..|fs|] == fs;
    if !f.rule.temporary { PermanentIsReported(defaults, times, fs, f); }
  }

  lemma {:induction false} PermanentIsReported(defaults: seq<Condition>, times: seq<int>, fs: seq<Firing>, f: Firing)
    requires |times| == |defaults| && !f.rule.temporary
    ensures var before, rel, r, t := After(InitialAll(defaults, times), fs), Relevant(f.rule.condition, fs), f.rule.reason, f.rule.condition;
      Generate(before, f).events ==
        if FirstOf(defaults, t).None? || (rel != [] && rel[|rel| - 1].rule.reason == r) then []
        else [Event(Warn, f.time, r, NowIs(t, True, r, f.message))]
  {
    var before, t := After(InitialAll(defaults, times), fs), f.rule.condition;
    TypesStay(defaults, times, fs);
    FirstOfSameTypes(before, defaults, t);
    var at := FirstOf(defaults, t);
    if at.Some? {
      ConditionFollowsFirings(defaults, times, fs, at.value);
      ExpectedStep(defaults[at.value], times[at.value], Relevant(t, fs), f);
    }
  }

  lemma {:induction false} TypesStay(defaults: seq<Condition>, times: seq<int>, fs: seq<Firing>)
    requires |times| == |defaults|
    ensures SameTypes(After(InitialAll(defaults, times), fs), defaults)
  {
    if fs != [] { TypesStay(defaults, times, fs[..|fs| - 1]); }
  }

  /** A status counts its events and shows the condition that it is about. */
  function OpsOf(o: Outcome): (r: seq<Op>) {
    CountOps(o.events) +
    if o.changed.None? || o.changed.value >= |o.conditions| then []
    else var c := o.conditions[o.changed.value]; [Show(c.typ, c.reason, c.status == True)]
  }

  /** All that the monitor asks of the metrics for a sequence of firings. */
  function Ops(cs: seq<Condition>, fs: seq<Firing>): (r: seq<Op>) {
    if fs == [] then [] else Ops(cs, fs[..|fs| - 1]) + OpsOf(Generate(After(cs, fs[..|fs| - 1]), fs[|fs| - 1]))
  }

  /** For every sequence of firings and whichever records fail: at most one reason per type is 1, and the
      counter of a reason shows what the records that did not fail have counted, in 64-bit arithmetic. */
  lemma {:induction false} MetricsFollow(cs: seq<Condition>, rules: seq<Rule>, fs: seq<Firing>, faults: seq<Fault>, reason: string)
    requires |faults| == |Ops(cs, fs)|
    ensures var b := PerformAll(StartBoard(rules), Ops(cs, fs), faults);
      OneReason(b) && Counts(b, reason, Counted(Ops(cs, fs), faults, reason))
  {
    MetricsFromStart(rules, Ops(cs, fs), faults, reason);
  }

  /** When none fails, that is the number of warnings emitted with the reason. */
  lemma {:induction false} CountsAllWarnings(cs: seq<Condition>, fs: seq<Firing>, reason: string)
    ensures Counted(Ops(cs, fs), Clean(|Ops(cs, fs)|), reason) == Warnings(Emitted(cs, fs), reason)
  {
    if fs != [] {
      var n := |fs| - 1;
      var before, o := Ops(cs, fs[..n]), Generate(After(cs, fs[..n]), fs[n]);
      CountsAllWarnings(cs, fs[..n], reason);
      StatusCountsWarnings(After(cs, fs[..n]), fs[n], reason);
      assert Clean(|before + OpsOf(o)|) == Clean(|before|) + Clean(|OpsOf(o)|);
      CountedAppends(before, Clean(|before|), OpsOf(o), Clean(|OpsOf(o)|), reason);
      WarningsAppend(Emitted(cs, fs[..n]), o.events, reason);
    }
  }

  lemma EventsAreWarnings(cs: seq<Condition>, f: Firing)
    ensures var o := Generate(cs, f); forall k :: 0 <= k < |o.events| ==> o.events[k].severity == Warn
  {
  }

  lemma {:induction false} StatusCountsWarnings(cs: seq<Condition>, f: Firing, reason: string)
    ensures var o := Generate(cs, f); Counted(OpsOf(o), Clean(|OpsOf(o)|), reason) == Warnings(o.events, reason)
  {
    var o := Generate(cs, f);
    var m := |o.events|;
    var shows := OpsOf(o)[m..];
    EventsAreWarnings(cs, f);
    CountsWarnings(o.events, reason);
    ShowsCountNothing(shows, Clean(|shows|), reason);
    assert OpsOf(o) == CountOps(o.events) + shows && Clean(|OpsOf(o)|) == Clean(m) + Clean(|shows|);
    CountedAppends(CountOps(o.events), Clean(m), shows, Clean(|shows|), reason);
  }

  // ----- gauges -----

  /** The status of a firing is about the condition of type `t`. */
  predicate IsAbout(o: Outcome, t: string) {
    o.changed.Some? && o.changed.value < |o.conditions| && o.conditions[o.changed.value].typ == t
  }

  /** In the last status about type `t`, if there was one, the gauge records did not fail. */
  predicate ShownWell(cs: seq<Condition>, fs: seq<Firing>, faults: seq<Fault>, t: string)
    requires |faults| == |Ops(cs, fs)|
  {
    if fs == [] then true
    else
      var n := |fs| - 1;
      if IsAbout(Generate(After(cs, fs[..n]), fs[n]), t) then faults[|faults| - 1] == NO_FAULT
      else ShownWell(cs, fs[..n], faults[..|Ops(cs, fs[..n])|], t)
  }

  /** Whatever failed elsewhere and before: if the last status about a type was shown without failure, the
      gauge of a reason of that type is 1 exactly when its condition is true for that reason. */
  lemma {:induction false} GaugesHeal(defaults: seq<Condition>, times: seq<int>, rules: seq<Rule>, fs: seq<Firing>,
                                      faults: seq<Fault>, t: string)
    requires |times| == |defaults| && |faults| == |Ops(InitialAll(defaults, times), fs)|
    requires ShownWell(InitialAll(defaults, times), fs, faults, t)
    ensures var cs := InitialAll(defaults, times);
      TypeTracks(PerformAll(StartBoard(rules), Ops(cs, fs), faults), After(cs, fs), t)
  {
    var cs := InitialAll(defaults, times);
    if fs == [] {
      StartTracks(defaults, times, rules);
    } else {
      var n := |fs| - 1;
      var before, cs', o := Ops(cs, fs[..n]), After(cs, fs[..n]), Generate(After(cs, fs[..n]), fs[n]);
      var m := |before|;
      var b := PerformAll(StartBoard(rules), before, faults[..m]);
      StartIsClear(rules);
      PerformKeepsOneReason(StartBoard(rules), before, faults[..m]);
      if !IsAbout(o, t) { GaugesHeal(defaults, times, rules, fs[..n], faults[..m], t); }
      PerformSplits(StartBoard(rules), before, OpsOf(o), faults);
      ReportTracks(b, cs', fs[n], faults[m..], t);
    }
  }

  lemma {:induction false} ReportTracks(b: Board, cs: seq<Condition>, f: Firing, faults: seq<Fault>, t: string)
    requires OneReason(b) && |faults| == |OpsOf(Generate(cs, f))|
    requires if IsAbout(Generate(cs, f), t) then faults[|faults| - 1] == NO_FAULT else TypeTracks(b, cs, t)
    ensures TypeTracks(PerformAll(b, OpsOf(Generate(cs, f)), faults), Generate(cs, f).conditions, t)
  {
    var o := Generate(cs, f);
    var m := |o.events|;
    var counts := CountOps(o.events);
    var mid := PerformAll(b, counts, faults[..m]);
    CountsKeepGauges(b, o.events, faults[..m]);
    FirstOfSameTypes(o.conditions, cs, t);
    if o.changed.None? {
      assert OpsOf(o) == counts && faults[..m] == faults;
    } else {
      var c := o.conditions[o.changed.value];
      var show := Show(c.typ, c.reason, true);
      assert OpsOf(o) == counts + [show];
      assert faults == faults[..m] + [faults[m]];
      PerformNext(b, counts, faults[..m], show, faults[m]);
      ShowTracks(mid, cs, f, faults[m], t);
    }
  }

  lemma {:induction false} CountsKeepGauges(b: Board, events: seq<Event>, faults: seq<Fault>)
    requires |faults| == |events| && OneReason(b)
    ensures var b' := PerformAll(b, CountOps(events), faults); OneReason(b') && forall t, r :: Gauge(b', t, r) == Gauge(b, t, r)
  {
    if events != [] {
      var n := |events| - 1;
      CountsKeepGauges(b, events[..n], faults[..n]);
      assert CountOps(events)[..n] == CountOps(events[..n]);
      var before := PerformAll(b, CountOps(events[..n]), faults[..n]);
      OnlyGaugesMatter(before, Perform(before, CountOps(events)[n], faults[n]));
    }
  }

  lemma ShowTracks(b: Board, cs: seq<Condition>, f: Firing, fault: Fault, t: string)
    requires OneReason(b) && Generate(cs, f).changed.Some?
    requires var o := Generate(cs, f); if IsAbout(o, t) then fault == NO_FAULT else TypeTracks(b, cs, t)
    ensures var o := Generate(cs, f); var c := o.conditions[o.changed.value];
      TypeTracks(Perform(b, Show(c.typ, c.reason, true), fault), o.conditions, t)
  {
    var o := Generate(cs, f);
    var c := o.conditions[o.changed.value];
    FirstOfSameTypes(o.conditions, cs, t);
    if IsAbout(o, t) {
      SetGaugeSets(b, c.typ, c.reason, true);
    } else {
      forall r ensures Gauge(Perform(b, Show(c.typ, c.reason, true), fault), t, r) == if IsActive(o.conditions, t, r) then 1 else 0 {
        assert Gauge(b, t, r) == if IsActive(cs, t, r) then 1 else 0;
      }
    }
  }

  /** In particular, when nothing fails, the gauges show exactly the active conditions after every status. */
  lemma {:induction false} GaugesFollow(defaults: seq<Condition>, times: seq<int>, rules: seq<Rule>, fs: seq<Firing>)
    requires |times| == |defaults|
    ensures var cs := InitialAll(defaults, times);
      Tracks(PerformAll(StartBoard(rules), Ops(cs, fs), Clean(|Ops(cs, fs)|)), After(cs, fs))
  {
    var cs := InitialAll(defaults, times);
    StartIsClear(rules);
    PerformKeepsOneReason(StartBoard(rules), Ops(cs, fs), Clean(|Ops(cs, fs)|));
    forall t ensures TypeTracks(PerformAll(StartBoard(rules), Ops(cs, fs), Clean(|Ops(cs, fs)|)), After(cs, fs), t) {
      CleanIsShownWell(cs, fs, t);
      GaugesHeal(defaults, times, rules, fs, Clean(|Ops(cs, fs)|), t);
    }
  }

  lemma {:induction false} CleanIsShownWell(cs: seq<Condition>, fs: seq<Firing>, t: string)
    ensures ShownWell(cs, fs, Clean(|Ops(cs, fs)|), t)
  {
    if fs != [] {
      var n := |fs| - 1;
      CleanIsShownWell(cs, fs[..n], t);
      assert Clean(|Ops(cs, fs)|)[..|Ops(cs, fs[..n])|] == Clean(|Ops(cs, fs[..n])|);
    }
  }

  lemma {:induction false} EmittedAppends(cs: seq<Condition>, a: seq<Firing>, b: seq<Firing>)
    ensures Emitted(cs, a + b) == Emitted(cs, a) + Emitted(After(cs, a), b)
  {
    if b == [] {
      assert a + b == a;
    } else {
      var init := b[..|b| - 1];
      assert (a + b)[..|a + b| - 1] == a + init;
      EmittedAppends(cs, a, init);
      AfterAppends(cs, a, init);
      Associates(Emitted(cs, a), Emitted(After(cs, a), init), Generate(After(cs, a + init), b[|b| - 1]).events);
    }
  }

  lemma {:induction false} OpsAppend(cs: seq<Condition>, a: seq<Firing>, b: seq<Firing>)
    ensures Ops(cs, a + b) == Ops(cs, a) + Ops(After(cs, a), b)
  {
    if b == [] {
      assert a + b == a;
    } else {
      var init := b[..|b| - 1];
      assert (a + b)[..|a + b| - 1] == a + init;
      OpsAppend(cs, a, init);
      AfterAppends(cs, a, init);
      Associates(Ops(cs, a), Ops(After(cs, a), init), OpsOf(Generate(After(cs, a + init), b[|b| - 1])));
    }
  }

  lemma Associates<T>(x: seq<T>, y: seq<T>, z: seq<T>)
    ensures (x + y) + z == x + (y + z)
  {
  }

  /** Handling one more line of a stream, from the conditions that the firings so far have led to, leads to
      those of all its firings; its events and its metric operations come after those so far. */
  lemma {:induction false} StreamIsAllFirings(rules: seq<LogRule>, max: nat, cs: seq<Condition>, stream: seq<Log>, log: Log)
    ensures var so, all, line := FiredBy(rules, max, stream), FiredBy(rules, max, stream + [log]),
                                 Fired(Attempts(rules, max, stream + [log]));
      && After(cs, all) == After(After(cs, so), line)
      && Emitted(cs, all) == Emitted(cs, so) + Emitted(After(cs, so), line)
      && Ops(cs, all) == Ops(cs, so) + Ops(After(cs, so), line)
  {
    var so, line := FiredBy(rules, max, stream), Fired(Attempts(rules, max, stream + [log]));
    FiredByNext(rules, max, stream, log);
    AfterAppends(cs, so, line);
    EmittedAppends(cs, so, line);
    OpsAppend(cs, so, line);
  }

  lemma FiredByNext(rules: seq<LogRule>, max: nat, stream: seq<Log>, log: Log)
    ensures FiredBy(rules, max, stream + [log]) ==
            FiredBy(rules, max, stream) + Fired(Attempts(rules, max, stream + [log]))
  {
    assert (stream + [log])[..|stream|] == stream;
  }

  // ----- the monitor -----

  /** Conditions, events and metric operations at some point of the handling of a log line. */
  datatype Progress = Progress(conditions: seq<Condition>, events: seq<Event>, ops: seq<Op>)

  function Advance(p: Progress, f: Firing): Progress {
    var o := Generate(p.conditions, f);
    Progress(o.conditions, p.events + o.events, p.ops + OpsOf(o))
  }

  function Attempted(p: Progress, attempt: Option<Firing>): Progress {
    if attempt.None? then p else Advance(p, attempt.value)
  }

  /** The progress from `p` when rules have been tried. */
  function Try(p: Progress, attempts: seq<Option<Firing>>): Progress {
    if attempts == [] then p
    else Attempted(Try(p, attempts[..|attempts| - 1]), attempts[|attempts| - 1])
  }

  lemma {:induction false} TryNext(p: Progress, attempts: seq<Option<Firing>>, attempt: Option<Firing>)
    ensures Try(p, attempts + [attempt]) == Attempted(Try(p, attempts), attempt)
  {
    assert (attempts + [attempt])[..|attempts|] == attempts;
  }

  function Summary(cs: seq<Condition>, fs: seq<Firing>): Progress {
    Progress(After(cs, fs), Emitted(cs, fs), Ops(cs, fs))
  }

  lemma {:induction false} SummaryAdvances(cs: seq<Condition>, fs: seq<Firing>, f: Firing)
    ensures Advance(Summary(cs, fs), f) == Summary(cs, fs + [f])
  {
    assert (fs + [f])[..|fs + [f]| - 1] == fs;
  }

  /** Trying the rules one by one is handling the firings, with the conditions, the events and the
      metric operations that the properties above are about. */
  lemma {:induction false} TryHandlesFirings(cs: seq<Condition>, attempts: seq<Option<Firing>>)
    ensures Try(Progress(cs, [], []), attempts) == Summary(cs, Fired(attempts))
  {
    if attempts != [] {
      var n := |attempts| - 1;
      TryHandlesFirings(cs, attempts[..n]);
      if attempts[n].Some? {
        SummaryAdvances(cs, Fired(attempts[..n]), attempts[n].value);
      }
    }
  }

  lemma PrefixNext<T>(prefix: seq<T>, x: T, whole: seq<T>)
    requires prefix <= whole && |prefix| < |whole| && whole[|prefix|] == x
    ensures prefix + [x] <= whole
  {
  }

  class LogMonitor {
    const rules: seq<LogRule>
    const buffer: LogBuffer
    const metricsReporting: bool
    const metrics: ProblemMetricsManager
    var conditions: seq<Condition>

    ghost predicate Valid()
      reads this, buffer, buffer.buffer, buffer.msg
    {
      buffer.Valid() && buffer.max >= 1
    }

    constructor (rules: seq<LogRule>, bufferSize: nat, metricsReporting: bool, metrics: ProblemMetricsManager,
                 defaults: seq<Condition>, times: seq<int>)
      requires bufferSize >= 1 && |times| == |defaults|
      ensures Valid() && buffer.max == bufferSize && buffer.pushed == []
      ensures this.rules == rules && this.metricsReporting == metricsReporting && this.metrics == metrics
      ensures conditions == InitialAll(defaults, times)
    {
      this.rules := rules;
      this.metricsReporting := metricsReporting;
      this.metrics := metrics;
      buffer := new LogBuffer(bufferSize);
      var initial := InitialConditions(defaults, times);
      conditions := initial;
    }

    method MakeMessage(logs: seq<Log>, suffix: string) returns (message: string)
      ensures message == ConcatLogs(Messages(logs)) + if suffix == "" then "" else "; " + suffix
    {
      var messages: seq<string> := [];
      for k := 0 to |logs|
        invariant messages == Messages(logs[..k])
      {
        messages := messages + [logs[k].message];
      }
      assert logs[..|logs|] == logs;
      message := ConcatLogs(messages);
      if suffix != "" {
        message := message + "; " + suffix;
      }
    }

    /** Changes the condition of the rule, reports the metrics and returns the events of the new status. */
    method GenerateStatus(f: Firing, ghost b: Board) returns (events: seq<Event>, ghost faults: seq<Fault>)
      requires metrics.Shows(b)
      modifies this`conditions, metrics, metrics.problemCounter, metrics.problemGauge
      ensures var o := Generate(old(conditions), f);
        && conditions == o.conditions && events == o.events
        && |faults| == |OpsOf(o)| && metrics.Shows(if metricsReporting then PerformAll(b, OpsOf(o), faults) else b)
    {
      events := [];
      var changed: Option<nat> := None;
      if f.rule.temporary {
        events := events + [Event(Warn, f.time, f.rule.reason, Plain(f.message))];
      } else {
        events, changed := UpdateCondition(f);
      }
      faults := Clean(|OpsOf(Outcome(conditions, events, changed))|);
      if metricsReporting {
        faults := ReportMetrics(events, changed, b);
      }
    }

    /** Counts the events, then shows the condition that changed; any record may fail. */
    method ReportMetrics(events: seq<Event>, changed: Option<nat>, ghost b: Board) returns (ghost faults: seq<Fault>)
      requires metrics.Shows(b) && (changed.Some? ==> changed.value < |conditions|)
      modifies metrics, metrics.problemCounter, metrics.problemGauge
      ensures var ops := OpsOf(Outcome(conditions, events, changed));
        |faults| == |ops| && metrics.Shows(PerformAll(b, ops, faults))
    {
      faults := CountAll(metrics, events, b);
      if changed.Some? {
        var c := conditions[changed.value];
        var failClear: bool, failSet: bool := *, *;
        ghost var mid := PerformAll(b, CountOps(events), faults);
        var ok := metrics.SetProblemGauge(c.typ, c.reason, c.status == True, failClear, failSet, mid);
        PerformNext(b, CountOps(events), faults, Show(c.typ, c.reason, c.status == True), Fault(failClear, failSet));
        faults := faults + [Fault(failClear, failSet)];
      } else {
        assert OpsOf(Outcome(conditions, events, changed)) == CountOps(events);
      }
    }

    method UpdateCondition(f: Firing) returns (events: seq<Event>, changed: Option<nat>)
      requires !f.rule.temporary
      modifies this`conditions
      ensures Outcome(conditions, events, changed) == Generate(old(conditions), f)
    {
      events, changed := [], None;
      for i := 0 to |conditions|
        invariant conditions == old(conditions) && events == [] && changed == None
        invariant FirstOf(conditions, f.rule.condition) == FirstFrom(conditions, f.rule.condition, i)
      {
        var c := conditions[i];
        if c.typ == f.rule.condition {
          if c.status == False || c.reason != f.rule.reason {
            c := c.(transition := f.time, message := f.message);
            events := [ConditionChangeEvent(c.(status := True, reason := f.rule.reason))];
          }
          conditions := conditions[i := c.(status := True, reason := f.rule.reason)];
          changed := Some(i);
          return;
        }
      }
    }

    /** The monitor is where `p` says, with the events so far in hand; if it reports metrics, they show
        what the operations so far, with these failures, have made of `b`. */
    ghost predicate At(p: Progress, b: Board, events: seq<Event>, faults: seq<Fault>)
      reads this, metrics, metrics.problemCounter, metrics.problemGauge
    {
      && conditions == p.conditions && events == p.events
      && |faults| == |p.ops| && metrics.Shows(if metricsReporting then PerformAll(b, p.ops, faults) else b)
    }

    method Handle(f: Firing, events: seq<Event>, ghost p: Progress, ghost b: Board, ghost faults: seq<Fault>)
      returns (more: seq<Event>, ghost next: seq<Fault>)
      requires At(p, b, events, faults)
      modifies this`conditions, metrics, metrics.problemCounter, metrics.problemGauge
      ensures At(Advance(p, f), b, more, next)
    {
      var status: seq<Event>;
      ghost var added: seq<Fault>;
      status, added := GenerateStatus(f, if metricsReporting then PerformAll(b, p.ops, faults) else b);
      more, next := events + status, faults + added;
      PerformAppends(b, p.ops, faults, OpsOf(Generate(p.conditions, f)), added);
    }

    /** These are the first rules' attempts on the buffer as it is. */
    ghost predicate Tried(attempts: seq<Option<Firing>>)
      reads buffer
    {
      attempts <= Attempts(rules, buffer.max, buffer.pushed)
    }

    /** Pushes the line and generates a status for every rule that matches, in order. */
    method ParseLog(log: Log, ghost b: Board) returns (events: seq<Event>, ghost faults: seq<Fault>)
      requires Valid() && metrics.Shows(b)
      modifies this`conditions, buffer, buffer.buffer, buffer.msg, metrics, metrics.problemCounter, metrics.problemGauge
      ensures Valid() && buffer.pushed == old(buffer.pushed) + [log]
      ensures At(Summary(old(conditions), Fired(Attempts(rules, buffer.max, buffer.pushed))), b, events, faults)
    {
      ghost var p := Progress(conditions, [], []);
      buffer.Push(log);
      ghost var attempts;
      events, faults, attempts := TryRules(p, b);
      assert attempts == Attempts(rules, buffer.max, buffer.pushed);
      TryHandlesFirings(p.conditions, attempts);
    }

    method TryRules(ghost p: Progress, ghost b: Board)
      returns (events: seq<Event>, ghost faults: seq<Fault>, ghost attempts: seq<Option<Firing>>)
      requires Valid() && At(p, b, [], [])
      modifies this`conditions, buffer`joined, buffer`joinedOK, metrics, metrics.problemCounter, metrics.problemGauge
      ensures Valid() && Tried(attempts) && |attempts| == |rules| && At(Try(p, attempts), b, events, faults)
    {
      events, faults, attempts := [], [], [];
      for k := 0 to |rules|
        invariant Valid() && Tried(attempts) && |attempts| == k && At(Try(p, attempts), b, events, faults)
      {
        events, faults, attempts := TryRule(k, events, p, attempts, b, faults);
      }
    }

    /** Tries the next rule, and generates a status if it fires. */
    method TryRule(k: nat, events: seq<Event>, ghost p: Progress, ghost attempts: seq<Option<Firing>>, ghost b: Board,
                   ghost faults: seq<Fault>)
      returns (more: seq<Event>, ghost nextFaults: seq<Fault>, ghost next: seq<Option<Firing>>)
      requires Valid() && Tried(attempts) && k == |attempts| < |rules| && At(Try(p, attempts), b, events, faults)
      modifies this`conditions, buffer`joined, buffer`joinedOK, metrics, metrics.problemCounter, metrics.problemGauge
      ensures Valid() && Tried(next) && |next| == |attempts| + 1 && At(Try(p, next), b, more, nextFaults)
    {
      ghost var attempt;
      more, nextFaults, attempt := MatchRule(k, events, Try(p, attempts), b, faults);
      next := attempts + [attempt];
      TryNext(p, attempts, attempt);
      PrefixNext(attempts, attempt, Attempts(rules, buffer.max, buffer.pushed));
    }

    method MatchRule(k: nat, events: seq<Event>, ghost p: Progress, ghost b: Board, ghost faults: seq<Fault>)
      returns (more: seq<Event>, ghost nextFaults: seq<Fault>, ghost attempt: Option<Firing>)
      requires k < |rules| && Valid() && At(p, b, events, faults)
      modifies this`conditions, buffer`joined, buffer`joinedOK, metrics, metrics.problemCounter, metrics.problemGauge
      ensures Valid() && attempt == FiringOf(rules[k], buffer.max, buffer.pushed)
      ensures At(Attempted(p, attempt), b, more, nextFaults)
    {
      more, nextFaults, attempt := events, faults, None;
      var matched := buffer.Match(rules[k].pattern);
      if |matched| != 0 {
        var message := MakeMessage(matched, rules[k].suffix);
        var f := Firing(rules[k].rule, matched[0].timestamp, message);
        more, nextFaults := Handle(f, events, p, b, faults);
        attempt := Some(f);
      }
    }
  }
}

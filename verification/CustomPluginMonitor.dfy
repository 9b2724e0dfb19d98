/** The custom plugin monitor: how a plugin result changes the conditions and which events it causes. */
module CustomPluginMonitors {
  import opened Options
  import opened Conditions
  import opened Streaks
  import opened ProblemMetrics
  import opened MonitorMetrics

  datatype Result = Result(rule: Rule, exitStatus: int, message: string)

  datatype Timed = Timed(result: Result, time: int)

  datatype Config = Config(defaults: seq<Condition>, onMessageChange: bool)

  function ToConditionStatus(exitStatus: int): Status {
    if exitStatus == 0 then False else if exitStatus == 1 then True else Unknown
  }

  // ----- one result -----

  /** The condition that a permanent result leads to, if it changes it at all. */
  function Judge(c: Condition, default: Condition, onMessageChange: bool, r: Timed): (u: Option<Condition>) {
    var status, result := ToConditionStatus(r.result.exitStatus), r.result;
    var fallback := Some(Condition(c.typ, status, r.time, default.reason,
                                   if status == False then default.message else result.message));
    var problem := Some(Condition(c.typ, status, r.time, result.rule.reason, result.message));
    if c.status == True && status != True then fallback
    else if c.status != True && status == True then problem
    else if c.status != status then fallback
    else if c.status == True && status == True &&
            (c.reason != result.rule.reason || (onMessageChange && c.message != result.message)) then problem
    else None
  }

  datatype Outcome = Outcome(conditions: seq<Condition>, active: seq<Event>, inactive: seq<Event>)

  function DefaultOf(defaults: seq<Condition>, t: string): Condition {
    var d := FirstOf(defaults, t);
    if d.Some? then defaults[d.value] else ZERO
  }

  function Generate(cfg: Config, cs: seq<Condition>, r: Timed): (o: Outcome)
    ensures |o.conditions| == |cs|
  {
    var rule := r.result.rule;
    if rule.temporary then
      Outcome(cs, if r.result.exitStatus >= 1 then [Event(Warn, r.time, rule.reason, Plain(r.result.message))] else [], [])
    else
      match FirstOf(cs, rule.condition)
      case None => Outcome(cs, [], [])
      case Some(i) =>
        match Judge(cs[i], DefaultOf(cfg.defaults, rule.condition), cfg.onMessageChange, r)
        case None => Outcome(cs, [], [])
        case Some(c) =>
          var e := ConditionChangeEvent(c);
          Outcome(cs[i := c], if c.status == True then [e] else [], if c.status == True then [] else [e])
  }

  /** A permanent result causes one event, and sets the transition time, exactly when it changes the
      status, reason or message of the first condition of its type; no other condition changes. */
  lemma OneEventPerChange(cfg: Config, cs: seq<Condition>, r: Timed, i: nat)
    requires !r.result.rule.temporary && i < |cs|
    ensures var o := Generate(cfg, cs, r); var c, c' := cs[i], o.conditions[i];
      if FirstOf(cs, r.result.rule.condition) != Some(i) then c' == c
      else if (c'.status, c'.reason, c'.message) == (c.status, c.reason, c.message) then c' == c && o.active == o.inactive == []
      else && c'.typ == c.typ && c'.transition == r.time
           && o.active + o.inactive == [Event(if c'.status == True then Warn else Info, r.time, c'.reason,
                                              NowIs(c'.typ, c'.status, c'.reason, c'.message))]
           && (o.active != [] <==> c'.status == True)
  {
  }

  // ----- every sequence of results -----

  function After(cfg: Config, cs: seq<Condition>, rs: seq<Timed>): (after: seq<Condition>)
    ensures |after| == |cs|
  {
    if rs == [] then cs else Generate(cfg, After(cfg, cs, rs[..|rs| - 1]), rs[|rs| - 1]).conditions
  }

  predicate IsRelevant(t: string, r: Timed) {
    !r.result.rule.temporary && r.result.rule.condition == t
  }

  /** The permanent results about one condition type. */
  function Relevant(t: string, rs: seq<Timed>): (r: seq<Timed>) {
    if rs == [] then []
    else Relevant(t, rs[..|rs| - 1]) + if IsRelevant(t, rs[|rs| - 1]) then [rs[|rs| - 1]] else []
  }

  /** What must change for a result to count as news: the status; for a problem its reason too, and
      its message if the configuration says so. */
  datatype Key = Key(status: Status, reason: string, message: string)

  const QUIET := Key(False, "", "")

  function KeyOf(onMessageChange: bool, r: Timed): Key {
    var status := ToConditionStatus(r.result.exitStatus);
    if status != True then Key(status, "", "")
    else Key(True, r.result.rule.reason, if onMessageChange then r.result.message else "")
  }

  function Keys(onMessageChange: bool, rs: seq<Timed>): (r: seq<Key>)
    ensures |r| == |rs|
  {
    seq(|rs|, k requires 0 <= k < |rs| => KeyOf(onMessageChange, rs[k]))
  }

  /** What the condition says after the result that caused it (or after none did). */
  function CausedBy(d: Condition, time: int, cause: Option<Timed>): Condition {
    match cause
    case None => Initial(d, time)
    case Some(r) =>
      var status := ToConditionStatus(r.result.exitStatus);
      Condition(d.typ, status, r.time, if status == True then r.result.rule.reason else d.reason,
                if status == False then d.message else r.result.message)
  }

  function Expected(cfg: Config, d: Condition, time: int, rel: seq<Timed>): Condition {
    var cause := Cause(Some(QUIET), Keys(cfg.onMessageChange, rel));
    CausedBy(d, time, if cause.None? then None else Some(rel[cause.value]))
  }

  lemma {:induction false} ExpectedStep(cfg: Config, d: Condition, time: int, rel: seq<Timed>, r: Timed)
    ensures var c := Expected(cfg, d, time, rel); var u := Judge(c, d, cfg.onMessageChange, r);
      Expected(cfg, d, time, rel + [r]) == if u.None? then c else u.value
  {
    var keys, keys' := Keys(cfg.onMessageChange, rel), Keys(cfg.onMessageChange, rel + [r]);
    assert keys'[..|rel|] == keys;
    CauseBeginsStreak(Some(QUIET), keys);
  }

  /** What one result does to the condition at `i`. */
  lemma GenerateAt(cfg: Config, cs: seq<Condition>, r: Timed, i: nat)
    requires SameTypes(cs, cfg.defaults) && i < |cs|
    ensures SameTypes(Generate(cfg, cs, r).conditions, cfg.defaults)
    ensures var t, c' := cs[i].typ, Generate(cfg, cs, r).conditions[i];
      if IsRelevant(t, r) && FirstOf(cfg.defaults, t) == Some(i) then
        var u := Judge(cs[i], cfg.defaults[i], cfg.onMessageChange, r); c' == if u.None? then cs[i] else u.value
      else c' == cs[i]
  {
    FirstOfSameTypes(cs, cfg.defaults, r.result.rule.condition);
  }

  /** For every sequence of results: the first condition of each type is what the first result of the
      current streak made it; every other condition stays as it was initially. */
  lemma {:induction false} ConditionFollowsStreak(cfg: Config, times: seq<int>, rs: seq<Timed>, i: nat)
    requires |times| == |cfg.defaults| && i < |times|
    ensures var t := cfg.defaults[i].typ; var after := After(cfg, InitialAll(cfg.defaults, times), rs);
      && SameTypes(after, cfg.defaults)
      && after[i] == if FirstOf(cfg.defaults, t) == Some(i) then Expected(cfg, cfg.defaults[i], times[i], Relevant(t, rs))
                     else Initial(cfg.defaults[i], times[i])
  {
    if rs != [] {
      var n := |rs| - 1;
      var before := After(cfg, InitialAll(cfg.defaults, times), rs[..n]);
      ConditionFollowsStreak(cfg, times, rs[..n], i);
      GenerateAt(cfg, before, rs[n], i);
      var rel := Relevant(cfg.defaults[i].typ, rs[..n]);
      assert rel + [] == rel;
      ExpectedStep(cfg, cfg.defaults[i], times[i], rel, rs[n]);
    }
  }

  /** In particular, by the exit status of the latest result: after a success the condition is False with
      its default reason and message, after a problem it is True with the rule's reason, and after any
      other exit it is Unknown with the default reason. */
  lemma {:induction false} ConditionShowsLatest(cfg: Config, times: seq<int>, rs: seq<Timed>, i: nat)
    requires |times| == |cfg.defaults| && i < |times| && FirstOf(cfg.defaults, cfg.defaults[i].typ) == Some(i)
    ensures var d := cfg.defaults[i]; var rel := Relevant(d.typ, rs); var c := After(cfg, InitialAll(cfg.defaults, times), rs)[i];
      if rel == [] then c == Condition(d.typ, False, times[i], d.reason, d.message)
      else
        var latest := rel[|rel| - 1].result;
        && c.typ == d.typ
        && (latest.exitStatus == 0 ==> c.status == False && c.reason == d.reason && c.message == d.message)
        && (latest.exitStatus == 1 ==> c.status == True && c.reason == latest.rule.reason)
        && (latest.exitStatus == 1 && cfg.onMessageChange ==> c.message == latest.message)
        && (latest.exitStatus != 0 && latest.exitStatus != 1 ==> c.status == Unknown && c.reason == d.reason)
  {
    var rel := Relevant(cfg.defaults[i].typ, rs);
    ConditionFollowsStreak(cfg, times, rs, i);
    var keys := Keys(cfg.onMessageChange, rel);
    CauseBeginsStreak(Some(QUIET), keys);
    if rel != [] { assert keys[|rel| - 1] == KeyOf(cfg.onMessageChange, rel[|rel| - 1]); }
  }

  /** The two results say the same: both a success, both neither success nor problem, or the same problem. */
  predicate SameNews(onMessageChange: bool, a: Result, b: Result) {
    && (a.exitStatus == 0 <==> b.exitStatus == 0)
    && (a.exitStatus == 1 <==> b.exitStatus == 1)
    && (a.exitStatus == 1 ==> a.rule.reason == b.rule.reason && (onMessageChange ==> a.message == b.message))
  }

  /** From `k` on all results say the same, and the one before `k`, or the silence before the first, does not. */
  ghost predicate BeginsStreak(onMessageChange: bool, rel: seq<Timed>, k: int) {
    && 0 <= k < |rel|
    && (forall j :: k <= j < |rel| ==> SameNews(onMessageChange, rel[j].result, rel[k].result))
    && (if k == 0 then rel[0].result.exitStatus != 0 else !SameNews(onMessageChange, rel[k - 1].result, rel[k].result))
  }

  lemma SameNewsIsSameKey(onMessageChange: bool, a: Timed, b: Timed)
    ensures SameNews(onMessageChange, a.result, b.result) <==> KeyOf(onMessageChange, a) == KeyOf(onMessageChange, b)
    ensures a.result.exitStatus == 0 <==> KeyOf(onMessageChange, a) == QUIET
  {
  }

  /** The time and, unless all is well, the message of the condition are those of the result that began the
      current streak; as long as all results were successes they are those of the start. */
  lemma {:induction false} ConditionDatesFromStreak(cfg: Config, times: seq<int>, rs: seq<Timed>, i: nat)
    requires |times| == |cfg.defaults| && i < |times| && FirstOf(cfg.defaults, cfg.defaults[i].typ) == Some(i)
    ensures var d := cfg.defaults[i]; var rel := Relevant(d.typ, rs); var c := After(cfg, InitialAll(cfg.defaults, times), rs)[i];
      if forall k :: 0 <= k < |rel| ==> rel[k].result.exitStatus == 0
      then c == Condition(d.typ, False, times[i], d.reason, d.message)
      else exists k :: BeginsStreak(cfg.onMessageChange, rel, k) && c.transition == rel[k].time &&
                       (rel[k].result.exitStatus != 0 ==> c.message == rel[k].result.message)
  {
    var rel := Relevant(cfg.defaults[i].typ, rs);
    ConditionFollowsStreak(cfg, times, rs, i);
    CauseIsNews(cfg.onMessageChange, rel);
    var cause := Cause(Some(QUIET), Keys(cfg.onMessageChange, rel));
    if cause.Some? { assert BeginsStreak(cfg.onMessageChange, rel, cause.value); }
  }

  lemma {:induction false} CauseIsNews(onMessageChange: bool, rel: seq<Timed>)
    ensures var cause := Cause(Some(QUIET), Keys(onMessageChange, rel));
      if cause.None? then forall k :: 0 <= k < |rel| ==> rel[k].result.exitStatus == 0
      else BeginsStreak(onMessageChange, rel, cause.value) && exists k :: 0 <= k < |rel| && rel[k].result.exitStatus != 0
  {
    var keys := Keys(onMessageChange, rel);
    CauseBeginsStreak(Some(QUIET), keys);
    var cause := Cause(Some(QUIET), keys);
    if cause.None? {
      forall k | 0 <= k < |rel| ensures rel[k].result.exitStatus == 0 {
        assert keys[k] == QUIET;
        SameNewsIsSameKey(onMessageChange, rel[k], rel[k]);
      }
    } else {
      var n := cause.value;
      forall j | n <= j < |rel| ensures SameNews(onMessageChange, rel[j].result, rel[n].result) {
        assert keys[j] == keys[n];
        SameNewsIsSameKey(onMessageChange, rel[j], rel[n]);
      }
      SameNewsIsSameKey(onMessageChange, rel[n], rel[n]);
      if n > 0 {
        assert keys[n - 1] != keys[n];
        SameNewsIsSameKey(onMessageChange, rel[n - 1], rel[n]);
      }
    }
  }

  // ----- metrics -----

  /** Every event of every status so far. */
  function Emitted(cfg: Config, cs: seq<Condition>, rs: seq<Timed>): (r: seq<Event>) {
    if rs == [] then []
    else
      var o := Generate(cfg, After(cfg, cs, rs[..|rs| - 1]), rs[|rs| - 1]);
      Emitted(cfg, cs, rs[..|rs| - 1]) + (o.active + o.inactive)
  }

  /** A temporary result changes no condition; it is reported as a warning exactly when it is not a success. */
  lemma {:induction false} TemporaryResultOnlyWarns(cfg: Config, cs: seq<Condition>, rs: seq<Timed>, r: Timed)
    requires r.result.rule.temporary
    ensures After(cfg, cs, rs + [r]) == After(cfg, cs, rs)
    ensures Emitted(cfg, cs, rs + [r]) == Emitted(cfg, cs, rs) +
            if r.result.exitStatus >= 1 then [Event(Warn, r.time, r.result.rule.reason, Plain(r.result.message))] else []
  {
    assert (rs + [r])[..|rs|] == rs;
  }

  /** A permanent result is reported exactly when it changes the first condition of its type: as a warning if
      that is now True, else as information. */
  lemma {:induction false} PermanentResultReportsChange(cfg: Config, cs: seq<Condition>, rs: seq<Timed>, r: Timed)
    requires !r.result.rule.temporary
    ensures var before, after := After(cfg, cs, rs), After(cfg, cs, rs + [r]); var at := FirstOf(before, r.result.rule.condition);
      Emitted(cfg, cs, rs + [r]) == Emitted(cfg, cs, rs) +
        if at.None? || ReadsSame(after[at.value], before[at.value]) then []
        else var c := after[at.value];
          [Event(if c.status == True then Warn else Info, r.time, c.reason, NowIs(c.typ, c.status, c.reason, c.message))]
  {
    assert (rs + [r])[..|rs|] == rs;
    var before := After(cfg, cs, rs);
    var at := FirstOf(before, r.result.rule.condition);
    if at.Some? { OneEventPerChange(cfg, before, r, at.value); }
  }

  predicate ReadsSame(a: Condition, b: Condition) {
    a.status == b.status && a.reason == b.reason && a.message == b.message
  }

  /** A status counts the active problems and then shows every condition. */
  function OpsOf(o: Outcome): (r: seq<Op>)
    ensures |r| == |o.active| + |o.conditions|
  {
    CountOps(o.active) + ShowOps(o.conditions)
  }

  /** All that the monitor asks of the metrics for a sequence of results. */
  function Ops(cfg: Config, cs: seq<Condition>, rs: seq<Timed>): (r: seq<Op>) {
    if rs == [] then []
    else Ops(cfg, cs, rs[..|rs| - 1]) + OpsOf(Generate(cfg, After(cfg, cs, rs[..|rs| - 1]), rs[|rs| - 1]))
  }

  lemma ActiveAreWarnings(cfg: Config, cs: seq<Condition>, r: Timed, reason: string)
    ensures var o := Generate(cfg, cs, r);
      && (forall k :: 0 <= k < |o.active| ==> o.active[k].severity == Warn)
      && Warnings(o.active + o.inactive, reason) == Warnings(o.active, reason)
  {
    var o := Generate(cfg, cs, r);
    WarningsAppend(o.active, o.inactive, reason);
    if o.inactive != [] { assert o.inactive[..0] == []; }
  }

  /** For every sequence of results and whichever records fail: at most one reason per type is 1, and the
      counter of a reason shows what the records that did not fail have counted, in 64-bit arithmetic. */
  lemma {:induction false} MetricsFollow(cfg: Config, times: seq<int>, rules: seq<Rule>, rs: seq<Timed>, faults: seq<Fault>,
                                         reason: string)
    requires |times| == |cfg.defaults| && |faults| == |Ops(cfg, InitialAll(cfg.defaults, times), rs)|
    ensures var ops := Ops(cfg, InitialAll(cfg.defaults, times), rs);
      && OneReason(PerformAll(StartBoard(rules), ops, faults))
      && Counts(PerformAll(StartBoard(rules), ops, faults), reason, Counted(ops, faults, reason))
  {
    MetricsFromStart(rules, Ops(cfg, InitialAll(cfg.defaults, times), rs), faults, reason);
  }

  /** When none fails, that is the number of warnings emitted with the reason. */
  lemma {:induction false} CountsAllWarnings(cfg: Config, cs: seq<Condition>, rs: seq<Timed>, reason: string)
    ensures Counted(Ops(cfg, cs, rs), Clean(|Ops(cfg, cs, rs)|), reason) == Warnings(Emitted(cfg, cs, rs), reason)
  {
    if rs != [] {
      var n := |rs| - 1;
      var before, o := Ops(cfg, cs, rs[..n]), Generate(cfg, After(cfg, cs, rs[..n]), rs[n]);
      CountsAllWarnings(cfg, cs, rs[..n], reason);
      StatusCountsWarnings(cfg, After(cfg, cs, rs[..n]), rs[n], reason);
      assert Clean(|before + OpsOf(o)|) == Clean(|before|) + Clean(|OpsOf(o)|);
      CountedAppends(before, Clean(|before|), OpsOf(o), Clean(|OpsOf(o)|), reason);
      WarningsAppend(Emitted(cfg, cs, rs[..n]), o.active + o.inactive, reason);
    }
  }

  lemma {:induction false} StatusCountsWarnings(cfg: Config, cs: seq<Condition>, r: Timed, reason: string)
    ensures var o := Generate(cfg, cs, r);
      Counted(OpsOf(o), Clean(|OpsOf(o)|), reason) == Warnings(o.active + o.inactive, reason)
  {
    var o := Generate(cfg, cs, r);
    var m, n := |o.active|, |o.conditions|;
    ActiveAreWarnings(cfg, cs, r, reason);
    CountsWarnings(o.active, reason);
    ShowsCountNothing(ShowOps(o.conditions), Clean(n), reason);
    assert Clean(m + n) == Clean(m) + Clean(n);
    CountedAppends(CountOps(o.active), Clean(m), ShowOps(o.conditions), Clean(n), reason);
  }

  // ----- gauges -----

  /** The results of a plugin are results of its rules. */
  ghost predicate FromRules(rules: seq<Rule>, rs: seq<Timed>) {
    forall k :: 0 <= k < |rs| ==> rs[k].result.rule in rules
  }

  ghost predicate Shared(defaults: seq<Condition>, t: string) {
    exists i, j :: 0 <= i < j < |defaults| && defaults[i].typ == t == defaults[j].typ
  }

  /** No permanent rule is about a type that two default conditions share. */
  ghost predicate NoSharedTarget(defaults: seq<Condition>, rules: seq<Rule>) {
    forall rule :: rule in rules && !rule.temporary ==> !Shared(defaults, rule.condition)
  }

  lemma {:induction false} NothingRelevant(rules: seq<Rule>, rs: seq<Timed>, t: string)
    requires FromRules(rules, rs) && forall rule :: rule in rules && !rule.temporary ==> rule.condition != t
    ensures Relevant(t, rs) == []
  {
    if rs != [] {
      assert rs[|rs| - 1].result.rule in rules;
      NothingRelevant(rules, rs[..|rs| - 1], t);
    }
  }

  /** A condition that shares its type is never true. */
  lemma {:induction false} SharedStaysFalse(cfg: Config, times: seq<int>, rules: seq<Rule>, rs: seq<Timed>, i: nat)
    requires |times| == |cfg.defaults| && i < |times| && FromRules(rules, rs) && NoSharedTarget(cfg.defaults, rules)
    requires Shared(cfg.defaults, cfg.defaults[i].typ)
    ensures After(cfg, InitialAll(cfg.defaults, times), rs)[i].status == False
  {
    ConditionFollowsStreak(cfg, times, rs, i);
    NothingRelevant(rules, rs, cfg.defaults[i].typ);
  }

  lemma {:induction false} ConditionsAreSettled(cfg: Config, times: seq<int>, rules: seq<Rule>, rs: seq<Timed>)
    requires |times| == |cfg.defaults| && FromRules(rules, rs) && NoSharedTarget(cfg.defaults, rules)
    ensures var after := After(cfg, InitialAll(cfg.defaults, times), rs); SameTypes(after, cfg.defaults) && Settled(after)
  {
    var after := After(cfg, InitialAll(cfg.defaults, times), rs);
    AfterKeepsTypes(cfg, InitialAll(cfg.defaults, times), rs);
    forall i, j | 0 <= i < j < |after| && after[i].typ == after[j].typ
      ensures after[i].status != True && after[j].status != True
    {
      assert cfg.defaults[i].typ == cfg.defaults[j].typ;
      assert Shared(cfg.defaults, cfg.defaults[i].typ);
      SharedStaysFalse(cfg, times, rules, rs, i);
      SharedStaysFalse(cfg, times, rules, rs, j);
    }
  }

  lemma {:induction false} AfterKeepsTypes(cfg: Config, cs: seq<Condition>, rs: seq<Timed>)
    requires SameTypes(cs, cfg.defaults)
    ensures SameTypes(After(cfg, cs, rs), cfg.defaults)
  {
    if rs != [] {
      AfterKeepsTypes(cfg, cs, rs[..|rs| - 1]);
      GenerateKeepsTypes(cfg, After(cfg, cs, rs[..|rs| - 1]), rs[|rs| - 1]);
    }
  }

  /** Only gauges of condition types are ever set. */
  lemma {:induction false} OpsShowKnownTypes(cfg: Config, cs: seq<Condition>, rs: seq<Timed>)
    requires SameTypes(cs, cfg.defaults)
    ensures forall k :: 0 <= k < |Ops(cfg, cs, rs)| && Ops(cfg, cs, rs)[k].Show? ==> FirstOf(cfg.defaults, Ops(cfg, cs, rs)[k].typ).Some?
  {
    if rs != [] {
      var n := |rs| - 1;
      var o := Generate(cfg, After(cfg, cs, rs[..n]), rs[n]);
      OpsShowKnownTypes(cfg, cs, rs[..n]);
      AfterKeepsTypes(cfg, cs, rs[..n]);
      GenerateKeepsTypes(cfg, After(cfg, cs, rs[..n]), rs[n]);
      forall k | 0 <= k < |o.conditions| ensures FirstOf(cfg.defaults, o.conditions[k].typ).Some? {
        assert cfg.defaults[k].typ == o.conditions[k].typ;
      }
    }
  }

  /** One status puts all gauges right, whatever failed before it and whichever of its counts fail, if
      its own gauge records do not fail: they are 1 exactly for the conditions that are true, for their
      reasons. It takes that no permanent rule is about a type that two default conditions share. */
  lemma {:induction false} GaugesHeal(cfg: Config, times: seq<int>, rules: seq<Rule>, rs: seq<Timed>, faults: seq<Fault>,
                                      r: Timed, countFaults: seq<Fault>)
    requires |times| == |cfg.defaults| && FromRules(rules, rs + [r]) && NoSharedTarget(cfg.defaults, rules)
    requires |faults| == |Ops(cfg, InitialAll(cfg.defaults, times), rs)|
    requires |countFaults| == |Generate(cfg, After(cfg, InitialAll(cfg.defaults, times), rs), r).active|
    ensures var cs := InitialAll(cfg.defaults, times);
      var b, o := PerformAll(StartBoard(rules), Ops(cfg, cs, rs), faults), Generate(cfg, After(cfg, cs, rs), r);
      Tracks(PerformAll(b, OpsOf(o), countFaults + Clean(|o.conditions|)), o.conditions)
  {
    var cs := InitialAll(cfg.defaults, times);
    var b, o := PerformAll(StartBoard(rules), Ops(cfg, cs, rs), faults), Generate(cfg, After(cfg, cs, rs), r);
    assert (rs + [r])[..|rs|] == rs;
    ConditionsAreSettled(cfg, times, rules, rs + [r]);
    StartIsClear(rules);
    PerformKeepsOneReason(StartBoard(rules), Ops(cfg, cs, rs), faults);
    OpsShowKnownTypes(cfg, cs, rs);
    PerformKeepsKnown(StartBoard(rules), Ops(cfg, cs, rs), faults, cfg.defaults);
    ReportTracks(b, o, countFaults, cfg.defaults);
  }

  lemma {:induction false} ReportTracks(b: Board, o: Outcome, countFaults: seq<Fault>, defaults: seq<Condition>)
    requires OneReason(b) && Known(b, defaults) && SameTypes(o.conditions, defaults) && Settled(o.conditions)
    requires |countFaults| == |o.active|
    ensures Tracks(PerformAll(b, OpsOf(o), countFaults + Clean(|o.conditions|)), o.conditions)
  {
    var mid := PerformAll(b, CountOps(o.active), countFaults);
    PerformKeepsOneReason(b, CountOps(o.active), countFaults);
    PerformKeepsKnown(b, CountOps(o.active), countFaults, defaults);
    PerformAppends(b, CountOps(o.active), countFaults, ShowOps(o.conditions), Clean(|o.conditions|));
    GaugesShowConditions(mid, o.conditions);
    var after := PerformAll(mid, ShowOps(o.conditions), Clean(|o.conditions|));
    forall t ensures TypeTracks(after, o.conditions, t) {
      FirstOfSameTypes(o.conditions, defaults, t);
      forall r ensures Gauge(after, t, r) == if IsActive(o.conditions, t, r) then 1 else 0 {
        assert FirstOf(defaults, t).None? ==> Gauge(mid, t, r) == 0;
      }
    }
  }

  /** The board after a sequence of results in which nothing fails. */
  function BoardAfter(cfg: Config, cs: seq<Condition>, b: Board, rs: seq<Timed>): Board {
    PerformAll(b, Ops(cfg, cs, rs), Clean(|Ops(cfg, cs, rs)|))
  }

  lemma {:induction false} BoardNext(cfg: Config, cs: seq<Condition>, b: Board, rs: seq<Timed>, r: Timed)
    ensures var o := Generate(cfg, After(cfg, cs, rs), r);
      BoardAfter(cfg, cs, b, rs + [r]) == PerformAll(BoardAfter(cfg, cs, b, rs), OpsOf(o), Clean(|o.active|) + Clean(|o.conditions|))
  {
    var before, o := Ops(cfg, cs, rs), Generate(cfg, After(cfg, cs, rs), r);
    assert (rs + [r])[..|rs|] == rs;
    assert Clean(|before + OpsOf(o)|) == Clean(|before|) + (Clean(|o.active|) + Clean(|o.conditions|));
    PerformAppends(b, before, Clean(|before|), OpsOf(o), Clean(|o.active|) + Clean(|o.conditions|));
  }

  /** Two conditions of one type share their gauges, and the later one, which no result changes, is set
      last: the gauges are right after every sequence of results of the rules exactly when no permanent
      rule is about a type that two default conditions share. */
  lemma {:induction false} MetricsNeedUnsharedTargets(cfg: Config, times: seq<int>, rules: seq<Rule>)
    requires |times| == |cfg.defaults|
    ensures var cs := InitialAll(cfg.defaults, times);
      (forall rs | FromRules(rules, rs) :: Tracks(BoardAfter(cfg, cs, StartBoard(rules), rs), After(cfg, cs, rs))) <==>
      NoSharedTarget(cfg.defaults, rules)
  {
    var cs := InitialAll(cfg.defaults, times);
    if NoSharedTarget(cfg.defaults, rules) {
      forall rs | FromRules(rules, rs) ensures Tracks(BoardAfter(cfg, cs, StartBoard(rules), rs), After(cfg, cs, rs)) {
        GaugesFollow(cfg, times, rules, rs);
      }
    } else {
      var rule :| rule in rules && !rule.temporary && Shared(cfg.defaults, rule.condition);
      var i, j :| 0 <= i < j < |cfg.defaults| && cfg.defaults[i].typ == rule.condition == cfg.defaults[j].typ;
      var r := Timed(Result(rule, 1, ""), 0);
      StartIsClear(rules);
      SecondConditionHidesFirst(cfg, cs, StartBoard(rules), r, i, j);
      assert FromRules(rules, [r]);
    }
  }

  lemma {:induction false} GaugesFollow(cfg: Config, times: seq<int>, rules: seq<Rule>, rs: seq<Timed>)
    requires |times| == |cfg.defaults| && FromRules(rules, rs) && NoSharedTarget(cfg.defaults, rules)
    ensures var cs := InitialAll(cfg.defaults, times);
      Tracks(BoardAfter(cfg, cs, StartBoard(rules), rs), After(cfg, cs, rs))
  {
    var cs := InitialAll(cfg.defaults, times);
    if rs == [] {
      StartTracks(cfg.defaults, times, rules);
    } else {
      var init, r := rs[..|rs| - 1], rs[|rs| - 1];
      assert rs == init + [r];
      var o := Generate(cfg, After(cfg, cs, init), r);
      GaugesHeal(cfg, times, rules, init, Clean(|Ops(cfg, cs, init)|), r, Clean(|o.active|));
      BoardNext(cfg, cs, StartBoard(rules), init, r);
    }
  }

  lemma {:induction false} SecondConditionHidesFirst(cfg: Config, cs: seq<Condition>, b: Board, r: Timed, i: nat, j: nat)
    requires i < j < |cs| && cs[i].typ == cs[j].typ && forall k :: 0 <= k < |cs| ==> cs[k].status == False
    requires OneReason(b) && !r.result.rule.temporary && r.result.rule.condition == cs[i].typ && r.result.exitStatus == 1
    ensures !Tracks(BoardAfter(cfg, cs, b, [r]), After(cfg, cs, [r]))
  {
    var t, reason := cs[i].typ, r.result.rule.reason;
    var after, shown := After(cfg, cs, [r]), BoardAfter(cfg, cs, b, [r]);
    FirstConditionIsActive(cfg, cs, r, i, j);
    LaterConditionIsShown(cfg, cs, b, r, j);
    assert Gauge(shown, t, reason) != 1 && IsActive(after, t, reason);
    assert !TypeTracks(shown, after, t);
  }

  lemma FirstConditionIsActive(cfg: Config, cs: seq<Condition>, r: Timed, i: nat, j: nat)
    requires i < j < |cs| && cs[i].typ == cs[j].typ && forall k :: 0 <= k < |cs| ==> cs[k].status == False
    requires !r.result.rule.temporary && r.result.rule.condition == cs[i].typ && r.result.exitStatus == 1
    ensures var after := After(cfg, cs, [r]);
      && after == Generate(cfg, cs, r).conditions && SameTypes(after, cs)
      && IsActive(after, cs[i].typ, r.result.rule.reason) && (forall k :: j <= k < |cs| ==> after[k].status == False)
  {
    assert [r][..0] == [];
    var after := Generate(cfg, cs, r).conditions;
    forall k | 0 <= k < |cs| ensures after[k].typ == cs[k].typ { }
    FirstOfSameTypes(after, cs, cs[i].typ);
  }

  lemma {:induction false} LaterConditionIsShown(cfg: Config, cs: seq<Condition>, b: Board, r: Timed, j: nat)
    requires OneReason(b) && j < |cs| && SameTypes(After(cfg, cs, [r]), cs)
    requires After(cfg, cs, [r]) == Generate(cfg, cs, r).conditions
    requires forall k :: j <= k < |cs| ==> After(cfg, cs, [r])[k].status == False
    ensures Gauge(BoardAfter(cfg, cs, b, [r]), cs[j].typ, r.result.rule.reason) != 1
  {
    var o := Generate(cfg, cs, r);
    var countFaults := Clean(|o.active|);
    assert [] + [r] == [r];
    BoardNext(cfg, cs, b, [], r);
    PerformAppends(b, CountOps(o.active), countFaults, ShowOps(o.conditions), Clean(|o.conditions|));
    PerformKeepsOneReason(b, CountOps(o.active), countFaults);
    LastConditionShows(PerformAll(b, CountOps(o.active), countFaults), o.conditions, cs[j].typ, r.result.rule.reason, j);
  }

  /** If no condition of the type from `j` on is true, its gauges end at 0. */
  lemma {:induction false} LastConditionShows(b: Board, cs: seq<Condition>, t: string, r: string, j: nat)
    requires OneReason(b) && j < |cs| && cs[j].typ == t
    requires forall k :: j <= k < |cs| && cs[k].typ == t ==> cs[k].status != True
    ensures Gauge(PerformAll(b, ShowOps(cs), Clean(|cs|)), t, r) != 1
  {
    var n := |cs| - 1;
    assert ShowOps(cs)[..n] == ShowOps(cs[..n]) && Clean(|cs|)[..n] == Clean(n);
    PerformKeepsOneReason(b, ShowOps(cs[..n]), Clean(n));
    SetGaugeSets(PerformAll(b, ShowOps(cs[..n]), Clean(n)), cs[n].typ, cs[n].reason, cs[n].status == True);
    if cs[n].typ != t {
      LastConditionShows(b, cs[..n], t, r, j);
    }
  }

  lemma GenerateKeepsTypes(cfg: Config, cs: seq<Condition>, r: Timed)
    requires SameTypes(cs, cfg.defaults)
    ensures SameTypes(Generate(cfg, cs, r).conditions, cfg.defaults)
    ensures SameTypes(Generate(cfg, cs, r).conditions, cs)
  {
  }

  // ----- the monitor -----

  class CustomPluginMonitor {
    const cfg: Config
    const metricsReporting: bool
    const metrics: ProblemMetricsManager
    var conditions: seq<Condition>

    constructor (cfg: Config, metricsReporting: bool, metrics: ProblemMetricsManager, times: seq<int>)
      requires |times| == |cfg.defaults|
      ensures this.cfg == cfg && this.metricsReporting == metricsReporting && this.metrics == metrics
      ensures conditions == InitialAll(cfg.defaults, times)
    {
      this.cfg := cfg;
      this.metricsReporting := metricsReporting;
      this.metrics := metrics;
      var initial := InitialConditions(cfg.defaults, times);
      conditions := initial;
    }

    /** The reason and message to go back to: those of the first default of the type. */
    method FindDefault(t: string) returns (reason: string, message: string)
      ensures var d := DefaultOf(cfg.defaults, t); reason == d.reason && message == d.message
    {
      reason, message := "", "";
      for j := 0 to |cfg.defaults|
        invariant reason == message == "" && FirstOf(cfg.defaults, t) == FirstFrom(cfg.defaults, t, j)
      {
        if cfg.defaults[j].typ == t {
          return cfg.defaults[j].reason, cfg.defaults[j].message;
        }
      }
    }

    /** Changes the conditions, reports the metrics and returns the events of the new status. */
    method GenerateStatus(r: Timed, ghost b: Board) returns (events: seq<Event>, ghost faults: seq<Fault>)
      requires metrics.Shows(b)
      modifies this`conditions, metrics, metrics.problemCounter, metrics.problemGauge
      ensures var o := Generate(cfg, old(conditions), r);
        && conditions == o.conditions && events == o.active + o.inactive
        && |faults| == |OpsOf(o)| && metrics.Shows(if metricsReporting then PerformAll(b, OpsOf(o), faults) else b)
    {
      var active: seq<Event>, inactive: seq<Event> := [], [];
      if r.result.rule.temporary {
        if r.result.exitStatus >= 1 {
          active := active + [Event(Warn, r.time, r.result.rule.reason, Plain(r.result.message))];
        }
      } else {
        active, inactive := UpdateConditions(r);
      }
      assert Outcome(conditions, active, inactive) == Generate(cfg, old(conditions), r);
      faults := Clean(|active| + |conditions|);
      if metricsReporting {
        faults := ReportMetrics(active, b);
      }
      events := active + inactive;
    }

    method UpdateConditions(r: Timed) returns (active: seq<Event>, inactive: seq<Event>)
      requires !r.result.rule.temporary
      modifies this`conditions
      ensures Outcome(conditions, active, inactive) == Generate(cfg, old(conditions), r)
    {
      var t := r.result.rule.condition;
      active, inactive := [], [];
      for i := 0 to |conditions|
        invariant conditions == old(conditions) && active == inactive == []
        invariant FirstOf(conditions, t) == FirstFrom(conditions, t, i)
      {
        var c := conditions[i];
        if c.typ == t {
          var defaultReason, defaultMessage := FindDefault(t);
          var status := ToConditionStatus(r.result.exitStatus);
          var needToUpdate, newReason, newMessage := true, "", "";
          if c.status == True && status != True {
            newReason := defaultReason;
            newMessage := if status == False then defaultMessage else r.result.message;
          } else if c.status != True && status == True {
            newReason, newMessage := r.result.rule.reason, r.result.message;
          } else if c.status != status {
            newReason := defaultReason;
            newMessage := if status == False then defaultMessage else r.result.message;
          } else if c.status == True && status == True &&
                    (c.reason != r.result.rule.reason || (cfg.onMessageChange && c.message != r.result.message)) {
            newReason, newMessage := r.result.rule.reason, r.result.message;
          } else {
            needToUpdate := false;
          }
          if needToUpdate {
            conditions := conditions[i := c.(transition := r.time, status := status, reason := newReason, message := newMessage)];
            var e := ConditionChangeEvent(conditions[i]);
            if status == True {
              active := [e];
            } else {
              inactive := [e];
            }
          }
          return;
        }
      }
    }

    /** Counts the active problems, then shows all conditions in order; any record may fail. */
    method ReportMetrics(active: seq<Event>, ghost b: Board) returns (ghost faults: seq<Fault>)
      requires metrics.Shows(b)
      modifies metrics, metrics.problemCounter, metrics.problemGauge
      ensures |faults| == |active| + |conditions|
      ensures metrics.Shows(PerformAll(b, CountOps(active) + ShowOps(conditions), faults))
    {
      ghost var counts := CountAll(metrics, active, b);
      ghost var mid := PerformAll(b, CountOps(active), counts);
      ghost var shows: seq<Fault> := [];
      for n := 0 to |conditions|
        invariant |shows| == n && metrics.Shows(PerformAll(mid, ShowOps(conditions[..n]), shows))
      {
        var c := conditions[n];
        var failClear: bool, failSet: bool := *, *;
        ghost var before := PerformAll(mid, ShowOps(conditions[..n]), shows);
        var ok := metrics.SetProblemGauge(c.typ, c.reason, c.status == True, failClear, failSet, before);
        PerformNext(mid, ShowOps(conditions[..n]), shows, Show(c.typ, c.reason, c.status == True), Fault(failClear, failSet));
        assert ShowOps(conditions[..n + 1]) == ShowOps(conditions[..n]) + [Show(c.typ, c.reason, c.status == True)];
        shows := shows + [Fault(failClear, failSet)];
      }
      assert conditions[..|conditions|] == conditions;
      PerformAppends(b, CountOps(active), counts, ShowOps(conditions), shows);
      faults := counts + shows;
    }
  }
}

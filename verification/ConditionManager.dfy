/** The condition manager: callers submit conditions at any time; a loop that ticks drains
    them and pushes everything it holds to the API server, which may fail. */
module ConditionManagers {
  import opened Options
  import opened Conditions

  type Held = map<string, Condition>

  const RESYNC_PERIOD := 10_000_000_000  // nanoseconds

  // ----- specification -----

  function Lookup(m: Held, t: string): Condition {
    if t in m then m[t] else ZERO
  }

  /** Draining stores every update that differs from what a read of the map gives. */
  function Drained(conditions: Held, updates: Held): Held {
    map t | t in conditions.Keys + updates.Keys && (t in conditions || updates[t] != ZERO)
      :: if t in updates then updates[t] else conditions[t]
  }

  predicate RealChange(conditions: Held, updates: Held) {
    exists t | t in updates :: Lookup(conditions, t) != updates[t]
  }

  predicate SinceAtLeast(now: int, last: Option<int>, period: int) {
    last.None? || now - last.value >= period
  }

  /** The clock readings of one tick, in the order in which the loop takes them. */
  datatype Clock = Clock(resync: int, heartbeat: int, now: int)

  /** The server merges by type. It may fail, and may have merged although it reports failure. */
  datatype Reply = Accepted | Failed(merged: bool)

  function ServerAfter(server: Held, sent: Held, reply: Reply): Held {
    if reply == Failed(false) then server else server + sent
  }

  /** An attempt to sync, and whether the tick had drained a real change. */
  datatype Attempt = Attempt(time: int, changed: bool)

  datatype LoopPc = Waiting | Ticked(changed: bool)

  datatype World = World(
    updates: Held, conditions: Held, latestTry: Option<int>, resyncNeeded: bool,
    server: Held, pc: LoopPc,
    submitted: Held,           // the last condition submitted for every type
    attempts: seq<Attempt>,    // every sync attempt so far
    clock: int)                // the latest clock reading

  /** The manager has just been made; the server may hold anything, and any time is now. */
  ghost predicate Starts(w: World) {
    w == World(map[], map[], None, false, w.server, Waiting, map[], [], w.clock)
  }

  datatype Action =
    | Submit(condition: Condition)              // UpdateCondition
    | BeginTick                                 // the tick arrives and needUpdates runs
    | EndTick(readings: Clock, reply: Reply)    // the rest of the tick

  predicate Possible(w: World, a: Action) {
    match a
    case Submit(_) => true
    case BeginTick => w.pc == Waiting
    case EndTick(r, _) => w.pc.Ticked? && w.clock <= r.resync <= r.heartbeat <= r.now
  }

  predicate Syncs(w: World, heartbeat: int, r: Clock)
    requires w.pc.Ticked?
  {
    w.pc.changed || (SinceAtLeast(r.resync, w.latestTry, RESYNC_PERIOD) && w.resyncNeeded)
    || SinceAtLeast(r.heartbeat, w.latestTry, heartbeat)
  }

  function Step(w: World, heartbeat: int, a: Action): World
    requires Possible(w, a)
  {
    match a
    case Submit(c) => w.(updates := w.updates[c.typ := c], submitted := w.submitted[c.typ := c])
    case BeginTick =>
      w.(conditions := Drained(w.conditions, w.updates), updates := map[], pc := Ticked(RealChange(w.conditions, w.updates)))
    case EndTick(r, reply) =>
      if Syncs(w, heartbeat, r) then
        w.(latestTry := Some(r.now), resyncNeeded := reply.Failed?, server := ServerAfter(w.server, w.conditions, reply),
           pc := Waiting, attempts := w.attempts + [Attempt(r.now, w.pc.changed)], clock := r.now)
      else w.(pc := Waiting, clock := r.now)
  }

  /** `worlds` is what the manager and its surroundings go through when `actions` happen. */
  ghost predicate Follows(worlds: seq<World>, heartbeat: int, actions: seq<Action>, k: nat)
    requires k < |actions| && |worlds| == |actions| + 1
  {
    Possible(worlds[k], actions[k]) && worlds[k + 1] == Step(worlds[k], heartbeat, actions[k])
  }

  ghost predicate Runs(worlds: seq<World>, heartbeat: int, actions: seq<Action>) {
    |worlds| == |actions| + 1 && forall k :: 0 <= k < |actions| ==> Follows(worlds, heartbeat, actions, k)
  }

  // ----- nothing submitted is lost -----

  /** What the manager would hold if it drained now. */
  function Overlay(w: World): Held { w.conditions + w.updates }

  /** `held` reads as `submitted`, holds nothing else, and holds all of it but the zero condition. */
  ghost predicate ReadsAs(held: Held, submitted: Held) {
    && (forall t :: t in held ==> t in submitted)
    && (forall t :: Lookup(held, t) == Lookup(submitted, t))
    && (forall t :: t in submitted && submitted[t] != ZERO ==> t in held)
  }

  ghost predicate NothingLost(w: World) {
    ReadsAs(Overlay(w), w.submitted) && forall t :: t in w.updates ==> w.updates[t].typ == t
  }

  lemma ReadsAsAfter(held: Held, submitted: Held, t: string, c: Condition)
    requires ReadsAs(held, submitted)
    ensures ReadsAs(held[t := c], submitted[t := c])
  {
    var held', submitted' := held[t := c], submitted[t := c];
    forall u ensures Lookup(held', u) == Lookup(submitted', u) {
      assert Lookup(held, u) == Lookup(submitted, u);
    }
  }

  lemma DrainLosesNothing(w: World, heartbeat: int)
    requires NothingLost(w) && w.pc == Waiting
    ensures NothingLost(Step(w, heartbeat, BeginTick))
  {
    var w' := Step(w, heartbeat, BeginTick);
    forall t
      ensures Lookup(Overlay(w'), t) == Lookup(Overlay(w), t)
      ensures t in Overlay(w') ==> t in Overlay(w)
    {
    }
    KeepsReading(w, w');
  }

  lemma KeepsReading(w: World, w': World)
    requires NothingLost(w) && w'.submitted == w.submitted
    requires forall t :: Lookup(Overlay(w'), t) == Lookup(Overlay(w), t)
    requires forall t :: t in Overlay(w') ==> t in Overlay(w)
    requires forall t :: t in w'.updates ==> w'.updates[t].typ == t
    ensures NothingLost(w')
  {
    forall t | t in w'.submitted && w'.submitted[t] != ZERO ensures t in Overlay(w') {
      assert Lookup(Overlay(w'), t) == w'.submitted[t];
    }
  }

  lemma SubmitLosesNothing(w: World, heartbeat: int, c: Condition)
    requires NothingLost(w)
    ensures NothingLost(Step(w, heartbeat, Submit(c)))
  {
    var w' := Step(w, heartbeat, Submit(c));
    assert Overlay(w') == Overlay(w)[c.typ := c];
    ReadsAsAfter(Overlay(w), w.submitted, c.typ, c);
  }

  lemma StepLosesNothing(w: World, heartbeat: int, a: Action)
    requires NothingLost(w) && Possible(w, a)
    ensures NothingLost(Step(w, heartbeat, a))
  {
    match a
    case Submit(c) => SubmitLosesNothing(w, heartbeat, c);
    case BeginTick => DrainLosesNothing(w, heartbeat);
    case EndTick(_, _) => assert Overlay(Step(w, heartbeat, a)) == Overlay(w);
  }

  /** In every interleaving of submissions, ticks and server failures, the pending updates laid
      over the conditions read the same as the last condition submitted for every type, and
      every one of those that is not the zero condition is really held. */
  lemma {:induction false} OverlayIsLastSubmitted(worlds: seq<World>, heartbeat: int, actions: seq<Action>, k: nat)
    requires Runs(worlds, heartbeat, actions) && Starts(worlds[0]) && k < |worlds|
    ensures NothingLost(worlds[k])
  {
    if k > 0 {
      OverlayIsLastSubmitted(worlds, heartbeat, actions, k - 1);
      assert Follows(worlds, heartbeat, actions, k - 1);
      StepLosesNothing(worlds[k - 1], heartbeat, actions[k - 1]);
    }
  }

  /** The one thing that a drain forgets is the zero condition, submitted for a type (the empty
      one) that is not held: as maps, the overlay survives the drain exactly when that is not so. */
  lemma DrainForgetsOnlyZero(w: World, heartbeat: int)
    requires w.pc == Waiting && NothingLost(w)
    ensures Overlay(Step(w, heartbeat, BeginTick)) == Overlay(w) <==>
            !("" in w.updates && w.updates[""] == ZERO && "" !in w.conditions)
  {
    if "" in w.updates && w.updates[""] == ZERO && "" !in w.conditions {
      assert "" in Overlay(w) && "" !in Overlay(Step(w, heartbeat, BeginTick));
    } else {
      forall t | t in w.updates && w.updates[t] == ZERO ensures t in w.conditions {
        assert w.updates[t].typ == t;
      }
      DrainKeepsAll(w.conditions, w.updates);
    }
  }

  /** That case is reached: submit the zero condition first, and the next tick forgets it. */
  lemma {:induction false} ZeroIsForgotten(w: World, heartbeat: int)
    requires Starts(w)
    ensures var w' := Step(w, heartbeat, Submit(ZERO));
      "" in Overlay(w') && "" !in Overlay(Step(w', heartbeat, BeginTick)) && "" in Step(w', heartbeat, BeginTick).submitted
  {
    var w' := Step(w, heartbeat, Submit(ZERO));
    StepLosesNothing(w, heartbeat, Submit(ZERO));
    DrainForgetsOnlyZero(w', heartbeat);
  }

  lemma DrainKeepsAll(conditions: Held, updates: Held)
    requires forall t :: t in updates && updates[t] == ZERO ==> t in conditions
    ensures Drained(conditions, updates) + map[] == conditions + updates
  {
    assert Drained(conditions, updates).Keys == conditions.Keys + updates.Keys;
  }

  /** A tick takes every pending update: what it holds then reads as everything submitted so far. */
  lemma {:induction false} TickTakesEverything(worlds: seq<World>, heartbeat: int, actions: seq<Action>, k: nat)
    requires Runs(worlds, heartbeat, actions) && Starts(worlds[0]) && k < |actions| && actions[k] == BeginTick
    ensures worlds[k + 1].updates == map[] && ReadsAs(worlds[k + 1].conditions, worlds[k].submitted)
  {
    OverlayIsLastSubmitted(worlds, heartbeat, actions, k + 1);
    assert Follows(worlds, heartbeat, actions, k);
    assert Overlay(worlds[k + 1]) == worlds[k + 1].conditions;
  }

  lemma {:induction false} RealChangeIsChange(conditions: Held, updates: Held)
    ensures RealChange(conditions, updates) <==> Drained(conditions, updates) != conditions
  {
    var drained := Drained(conditions, updates);
    if RealChange(conditions, updates) {
      var t :| t in updates && Lookup(conditions, t) != updates[t];
      assert t in drained && drained[t] == updates[t];
    } else {
      assert drained == conditions;
    }
  }

  // ----- when a tick syncs -----

  /** A tick that begins at `j` and ends at `k`, with only submissions in between. */
  ghost predicate IsTick(actions: seq<Action>, j: int, k: int) {
    0 <= j < k < |actions| && actions[j] == BeginTick && actions[k].EndTick? && forall m :: j < m < k ==> actions[m].Submit?
  }

  lemma {:induction false} TickKeeps(worlds: seq<World>, heartbeat: int, actions: seq<Action>, j: nat, m: nat)
    requires Runs(worlds, heartbeat, actions) && j < m < |worlds| && actions[j] == BeginTick
    requires forall i :: j < i < m ==> actions[i].Submit?
    ensures var w, w' := worlds[j], worlds[m];
      && w'.conditions == worlds[j + 1].conditions && w'.pc == Ticked(worlds[j + 1].conditions != w.conditions)
      && w'.attempts == w.attempts && w'.latestTry == w.latestTry && w'.resyncNeeded == w.resyncNeeded && w'.server == w.server
  {
    assert Follows(worlds, heartbeat, actions, m - 1);
    if m == j + 1 {
      RealChangeIsChange(worlds[j].conditions, worlds[j].updates);
    } else {
      TickKeeps(worlds, heartbeat, actions, j, m - 1);
    }
  }

  /** A tick makes an attempt exactly when it changed what is held, when there was no attempt before, when a
      failed attempt is a resync period old, or when the last attempt is a heartbeat period old. The attempt
      says whether the tick changed anything, and only it changes what is known of the last attempt. */
  lemma {:induction false} TickSyncsWhenDue(worlds: seq<World>, heartbeat: int, actions: seq<Action>, j: nat, k: nat)
    requires Runs(worlds, heartbeat, actions) && IsTick(actions, j, k)
    ensures var w, w', r := worlds[j], worlds[k + 1], actions[k].readings;
      var changed := worlds[j + 1].conditions != w.conditions;
      if || changed || w.latestTry.None?
         || (w.resyncNeeded && w.latestTry.value + 10_000_000_000 <= r.resync)
         || w.latestTry.value + heartbeat <= r.heartbeat
      then && w'.attempts == w.attempts + [Attempt(r.now, changed)]
           && w'.latestTry == Some(r.now) && w'.resyncNeeded == (actions[k].reply != Accepted)
      else w'.attempts == w.attempts && w'.latestTry == w.latestTry && w'.resyncNeeded == w.resyncNeeded && w'.server == w.server
  {
    TickKeeps(worlds, heartbeat, actions, j, k);
    assert Follows(worlds, heartbeat, actions, k);
  }

  /** An accepted attempt brings everything submitted before its tick to the server. */
  lemma {:induction false} AcceptedSyncDelivers(worlds: seq<World>, heartbeat: int, actions: seq<Action>, j: nat, k: nat, t: string)
    requires Runs(worlds, heartbeat, actions) && Starts(worlds[0]) && IsTick(actions, j, k)
    requires |worlds[k + 1].attempts| > |worlds[j].attempts| && actions[k].reply == Accepted
    requires t in worlds[j].submitted && worlds[j].submitted[t] != ZERO
    ensures t in worlds[k + 1].server && worlds[k + 1].server[t] == worlds[j].submitted[t]
  {
    TickTakesEverything(worlds, heartbeat, actions, j);
    TickKeeps(worlds, heartbeat, actions, j, k);
    assert Follows(worlds, heartbeat, actions, k);
    assert Lookup(worlds[j + 1].conditions, t) == Lookup(worlds[j].submitted, t);
  }

  // ----- the server agrees -----

  ghost predicate Agrees(w: World) {
    forall t :: t in w.conditions ==> t in w.server && w.server[t] == w.conditions[t]
  }

  /** With no other writer, whenever no resync is due at a tick boundary (or in a tick that
      drained no change), the server holds every condition that the manager holds. */
  lemma {:induction false} ServerAgreesUnlessResyncDue(worlds: seq<World>, heartbeat: int, actions: seq<Action>, k: nat)
    requires Runs(worlds, heartbeat, actions) && Starts(worlds[0]) && k < |worlds|
    ensures !worlds[k].resyncNeeded && worlds[k].pc != Ticked(true) ==> Agrees(worlds[k])
  {
    if k > 0 {
      ServerAgreesUnlessResyncDue(worlds, heartbeat, actions, k - 1);
      assert Follows(worlds, heartbeat, actions, k - 1);
      var w := worlds[k - 1];
      if actions[k - 1] == BeginTick && !RealChange(w.conditions, w.updates) {
        assert Drained(w.conditions, w.updates) == w.conditions;
      }
    }
  }

  // ----- the server is not flooded -----

  function Shorter(a: int, b: int): int { if a < b then a else b }

  /** Attempts come in order of time; one that no change caused keeps its distance. */
  ghost predicate SpacedAt(log: seq<Attempt>, gap: int, n: nat)
    requires n + 1 < |log|
  {
    log[n].time <= log[n + 1].time && (log[n + 1].changed || log[n + 1].time - log[n].time >= gap)
  }

  ghost predicate Spaced(log: seq<Attempt>, gap: int) {
    forall n :: 0 <= n < |log| - 1 ==> SpacedAt(log, gap, n)
  }

  ghost predicate ClockOk(w: World, gap: int) {
    && Spaced(w.attempts, gap)
    && (if w.attempts == [] then w.latestTry.None?
        else w.latestTry == Some(w.attempts[|w.attempts| - 1].time) && w.latestTry.value <= w.clock)
  }

  lemma StepKeepsSpacing(w: World, heartbeat: int, a: Action)
    requires ClockOk(w, Shorter(RESYNC_PERIOD, heartbeat)) && Possible(w, a)
    ensures ClockOk(Step(w, heartbeat, a), Shorter(RESYNC_PERIOD, heartbeat))
  {
    var w', gap := Step(w, heartbeat, a), Shorter(RESYNC_PERIOD, heartbeat);
    forall n | 0 <= n < |w'.attempts| - 1 ensures SpacedAt(w'.attempts, gap, n) {
      if n < |w.attempts| - 1 { assert SpacedAt(w.attempts, gap, n); }
    }
  }

  lemma {:induction false} AttemptsAreSpaced(worlds: seq<World>, heartbeat: int, actions: seq<Action>, k: nat)
    requires Runs(worlds, heartbeat, actions) && Starts(worlds[0]) && k < |worlds|
    ensures ClockOk(worlds[k], Shorter(RESYNC_PERIOD, heartbeat))
  {
    if k > 0 {
      AttemptsAreSpaced(worlds, heartbeat, actions, k - 1);
      assert Follows(worlds, heartbeat, actions, k - 1);
      StepKeepsSpacing(worlds[k - 1], heartbeat, actions[k - 1]);
    }
  }

  /** The attempts from `x` up to `y` that a drained change caused. */
  function Changes(log: seq<Attempt>, x: nat, y: nat): (r: nat)
    requires x <= y <= |log|
  {
    if x == y then 0 else Changes(log, x, y - 1) + if log[y - 1].changed then 1 else 0
  }

  lemma {:induction false} QuietAttemptsTakeTime(log: seq<Attempt>, gap: int, x: nat, y: nat)
    requires x < y <= |log| && Spaced(log, gap) && gap > 0
    ensures log[x].time <= log[y - 1].time
    ensures y - x - Changes(log, x, y) <= 1 || (y - x - Changes(log, x, y) - 1) * gap <= log[y - 1].time - log[x].time
  {
    assert Changes(log, x, x) == 0;
    if y - 1 > x {
      QuietAttemptsTakeTime(log, gap, x, y - 1);
      assert SpacedAt(log, gap, y - 2);
      var n := y - 1 - x - Changes(log, x, y - 1);
      if !log[y - 1].changed && n >= 1 {
        assert n * gap == (n - 1) * gap + gap;
      }
    }
  }

  /** How many of the actions from `a` up to `b` begin a tick that changes what is held. */
  function ChangingTicks(worlds: seq<World>, actions: seq<Action>, a: nat, b: nat): (r: nat)
    requires a <= b <= |actions| && |worlds| == |actions| + 1
  {
    if a == b then 0
    else ChangingTicks(worlds, actions, a, b - 1) +
         if actions[b - 1] == BeginTick && worlds[b].conditions != worlds[b - 1].conditions then 1 else 0
  }

  lemma {:induction false} ChangesOfPrefix(log: seq<Attempt>, more: Attempt, x: nat, y: nat)
    requires x <= y <= |log|
    ensures Changes(log + [more], x, y) == Changes(log, x, y)
  {
    if x < y { ChangesOfPrefix(log, more, x, y - 1); }
  }

  /** From a moment between two ticks on, every attempt that says it was caused by a change belongs to a
      tick that changed what is held. */
  lemma {:induction false} ChangesAreTicks(worlds: seq<World>, heartbeat: int, actions: seq<Action>, a: nat, b: nat)
    requires Runs(worlds, heartbeat, actions) && a <= b < |worlds| && worlds[a].pc == Waiting
    ensures var x, log := |worlds[a].attempts|, worlds[b].attempts;
      && x <= |log|
      && Changes(log, x, |log|) + (if worlds[b].pc == Ticked(true) then 1 else 0) <= ChangingTicks(worlds, actions, a, b)
    decreases b
  {
    if a < b {
      var w, x := worlds[b - 1], |worlds[a].attempts|;
      ChangesAreTicks(worlds, heartbeat, actions, a, b - 1);
      assert Follows(worlds, heartbeat, actions, b - 1);
      match actions[b - 1]
      case Submit(_) =>
      case BeginTick => RealChangeIsChange(w.conditions, w.updates);
      case EndTick(r, _) =>
        if Syncs(w, heartbeat, r) { ChangesOfPrefix(w.attempts, Attempt(r.now, w.pc.changed), x, |w.attempts|); }
    }
  }

  /** From any moment between two ticks on: in any window of length `span` there are at most as many attempts
      as ticks that changed what is held, plus one for every shorter period that fits, plus one. */
  lemma {:induction false} ServerIsNotFlooded(worlds: seq<World>, heartbeat: int, actions: seq<Action>, a: nat, b: nat, span: nat)
    requires Runs(worlds, heartbeat, actions) && Starts(worlds[0]) && a <= b < |worlds| && worlds[a].pc == Waiting
    requires var x, log := |worlds[a].attempts|, worlds[b].attempts;
      x < |log| ==> log[|log| - 1].time - log[x].time <= span
    ensures heartbeat > 0 ==>
      |worlds[b].attempts| - |worlds[a].attempts| <=
        ChangingTicks(worlds, actions, a, b) + span / Shorter(10_000_000_000, heartbeat) + 1
  {
    var x, log := |worlds[a].attempts|, worlds[b].attempts;
    AttemptsAreSpaced(worlds, heartbeat, actions, b);
    ChangesAreTicks(worlds, heartbeat, actions, a, b);
    if heartbeat > 0 {
      if x < |log| {
        FewQuietAttempts(log, Shorter(RESYNC_PERIOD, heartbeat), x, |log|, span);
      } else {
        Fits(span, Shorter(RESYNC_PERIOD, heartbeat));
      }
    }
  }

  lemma Fits(span: nat, gap: nat)
    requires gap > 0
    ensures span / gap >= 0
  {
  }

  lemma {:induction false} FewQuietAttempts(log: seq<Attempt>, gap: int, x: nat, y: nat, span: nat)
    requires x < y <= |log| && Spaced(log, gap) && gap > 0 && log[y - 1].time - log[x].time <= span
    ensures y - x <= Changes(log, x, y) + span / gap + 1
  {
    QuietAttemptsTakeTime(log, gap, x, y);
    var n := y - x - Changes(log, x, y) - 1;
    if n > 0 { FitsInto(n, gap, span); }
  }

  /** Without a positive heartbeat period there is no such bound: every tick syncs. */
  lemma {:induction false} NoHeartbeatPeriodSyncsEveryTick(worlds: seq<World>, heartbeat: int, actions: seq<Action>, k: nat)
    requires Runs(worlds, heartbeat, actions) && Starts(worlds[0]) && heartbeat <= 0
    requires k < |actions| && actions[k].EndTick?
    ensures |worlds[k + 1].attempts| == |worlds[k].attempts| + 1
  {
    AttemptsAreSpaced(worlds, heartbeat, actions, k);
    assert Follows(worlds, heartbeat, actions, k);
  }

  lemma FitsInto(n: nat, gap: nat, span: nat)
    requires gap > 0 && n * gap <= span
    ensures n <= span / gap
  {
    var q := span / gap;
    assert span == q * gap + span % gap;
    MultiplesGrow(q + 1, n, gap);
  }

  lemma MultiplesGrow(m: nat, n: nat, gap: nat)
    ensures m <= n ==> m * gap <= n * gap
  {
    if m <= n { assert n * gap == m * gap + (n - m) * gap; }
  }

  // ----- a failed sync is retried -----

  /** After a failed sync the next attempt is made no later than in the first tick that reads a
      time at least the resync period after the failed try. */
  lemma {:induction false} FailedSyncIsRetried(worlds: seq<World>, heartbeat: int, actions: seq<Action>, k: nat)
    requires Runs(worlds, heartbeat, actions) && worlds[0].resyncNeeded && worlds[0].latestTry.Some?
    requires k < |actions| && actions[k].EndTick? && actions[k].readings.resync >= worlds[0].latestTry.value + 10_000_000_000
    ensures |worlds[k + 1].attempts| > |worlds[0].attempts|
  {
    QuietUntilAttempt(worlds, heartbeat, actions, k);
    assert Follows(worlds, heartbeat, actions, k);
  }

  lemma {:induction false} QuietUntilAttempt(worlds: seq<World>, heartbeat: int, actions: seq<Action>, k: nat)
    requires Runs(worlds, heartbeat, actions) && k < |worlds|
    ensures |worlds[k].attempts| > |worlds[0].attempts| ||
            (worlds[k].attempts == worlds[0].attempts && worlds[k].resyncNeeded == worlds[0].resyncNeeded &&
             worlds[k].latestTry == worlds[0].latestTry)
  {
    if k > 0 {
      QuietUntilAttempt(worlds, heartbeat, actions, k - 1);
      assert Follows(worlds, heartbeat, actions, k - 1);
    }
  }

  // ----- the objects -----

  /** What a list of conditions says of every type: the last one counts. */
  function ByType(list: seq<Condition>): Held {
    if list == [] then map[] else ByType(list[..|list| - 1])[list[|list| - 1].typ := list[|list| - 1]]
  }

  lemma ByTypeSnoc(list: seq<Condition>, c: Condition)
    ensures ByType(list + [c]) == ByType(list)[c.typ := c]
  {
    assert (list + [c])[..|list|] == list;
  }

  class ApiServer {
    var held: Held

    /** Merges by type, unless the request fails first. */
    method SetConditions(conditions: seq<Condition>, reply: Reply) returns (ok: bool)
      modifies this
      ensures held == ServerAfter(old(held), ByType(conditions), reply)
      ensures ok == reply.Accepted?
    {
      if reply != Failed(false) {
        for n := 0 to |conditions|
          invariant held == old(held) + ByType(conditions[..n])
        {
          ByTypeSnoc(conditions[..n], conditions[n]);
          assert conditions[..n] + [conditions[n]] == conditions[..n + 1];
          held := held[conditions[n].typ := conditions[n]];
        }
        assert conditions[..|conditions|] == conditions;
      }
      ok := reply.Accepted?;
    }
  }

  class ConditionManager {
    const client: ApiServer
    const heartbeatPeriod: int
    var updates: Held
    var conditions: Held
    var latestTry: Option<int>
    var resyncNeeded: bool

    ghost predicate Valid()
      reads this
    {
      && (forall t :: t in updates ==> updates[t].typ == t)
      && (forall t :: t in conditions ==> conditions[t].typ == t)
    }

    /** The object is in the state that `w` describes. */
    ghost predicate Is(w: World)
      reads this, client
    {
      && Valid()
      && w.updates == updates && w.conditions == conditions
      && w.latestTry == latestTry && w.resyncNeeded == resyncNeeded && w.server == client.held
    }

    constructor (client: ApiServer, heartbeatPeriod: int)
      ensures this.client == client && this.heartbeatPeriod == heartbeatPeriod
      ensures forall w :: Starts(w) && w.server == client.held ==> Is(w)
    {
      this.client := client;
      this.heartbeatPeriod := heartbeatPeriod;
      updates, conditions, latestTry, resyncNeeded := map[], map[], None, false;
    }

    method UpdateCondition(condition: Condition, ghost w: World)
      requires Is(w)
      modifies this
      ensures Is(Step(w, heartbeatPeriod, Submit(condition)))
    {
      updates := updates[condition.typ := condition];
    }

    /** Drains the updates in whatever order the map gives them. */
    method NeedUpdates() returns (needUpdate: bool)
      requires Valid()
      modifies this`updates, this`conditions
      ensures Valid() && updates == map[]
      ensures conditions == Drained(old(conditions), old(updates))
      ensures needUpdate <==> conditions != old(conditions)
    {
      needUpdate := false;
      ghost var before, todo, part := conditions, updates, map[];
      while updates != map[]
        invariant Valid() && part.Keys !! updates.Keys && part + updates == todo
        invariant conditions == Drained(before, part)
        invariant needUpdate == RealChange(before, part)
        decreases updates.Keys
      {
        var t :| t in updates;
        var update := updates[t];
        DrainOne(before, part, t, update);
        ChangeOne(before, part, t, update);
        if Lookup(conditions, t) != update {
          needUpdate := true;
          conditions := conditions[t := update];
        }
        MoveOne(part, updates, t);
        updates := updates - {t};
        part := part[t := update];
      }
      assert part == todo;
      RealChangeIsChange(before, todo);
    }

    method NeedResync(now: int) returns (r: bool)
      ensures r <==> resyncNeeded && (latestTry.Some? ==> latestTry.value + RESYNC_PERIOD <= now)
    {
      r := SinceAtLeast(now, latestTry, RESYNC_PERIOD) && resyncNeeded;
    }

    method NeedHeartbeat(now: int) returns (r: bool)
      ensures r <==> (latestTry.Some? ==> latestTry.value + heartbeatPeriod <= now)
    {
      r := SinceAtLeast(now, latestTry, heartbeatPeriod);
    }

    /** Everything that is held, in whatever order the map gives it. */
    method List() returns (list: seq<Condition>)
      requires Valid()
      ensures ByType(list) == conditions
    {
      list := [];
      var rest := conditions.Keys;
      while rest != {}
        invariant rest <= conditions.Keys && ByType(list) == conditions - rest
        decreases rest
      {
        var t :| t in rest;
        ByTypeSnoc(list, conditions[t]);
        list := list + [conditions[t]];
        rest := rest - {t};
        assert conditions - rest == (conditions - (rest + {t}))[t := conditions[t]];
      }
    }

    method Sync(now: int, reply: Reply)
      requires Valid()
      modifies this`latestTry, this`resyncNeeded, client
      ensures Valid() && latestTry == Some(now) && resyncNeeded == reply.Failed?
      ensures client.held == ServerAfter(old(client.held), conditions, reply)
    {
      latestTry := Some(now);
      resyncNeeded := false;
      var list := List();
      var ok := client.SetConditions(list, reply);
      if !ok {
        resyncNeeded := true;
      }
    }

    /** What the loop does on a tick is what the two tick actions describe. */
    method Tick(readings: Clock, reply: Reply, ghost w: World)
      requires Is(w) && w.pc == Waiting && w.clock <= readings.resync <= readings.heartbeat <= readings.now
      modifies this, client
      ensures Is(Step(Step(w, heartbeatPeriod, BeginTick), heartbeatPeriod, EndTick(readings, reply)))
    {
      RealChangeIsChange(conditions, updates);
      var need := NeedUpdates();
      FinishTick(need, readings, reply, Step(w, heartbeatPeriod, BeginTick));
    }

    /** The loop's condition after `needUpdates`, and the sync. */
    method FinishTick(changed: bool, readings: Clock, reply: Reply, ghost w: World)
      requires Is(w) && w.pc == Ticked(changed) && Possible(w, EndTick(readings, reply))
      modifies this`latestTry, this`resyncNeeded, client
      ensures Is(Step(w, heartbeatPeriod, EndTick(readings, reply)))
    {
      var need := changed;
      if !need {
        need := NeedResync(readings.resync);
      }
      if !need {
        need := NeedHeartbeat(readings.heartbeat);
      }
      if need {
        Sync(readings.now, reply);
      }
    }
  }

  lemma MoveOne(part: Held, rest: Held, t: string)
    requires t in rest && part.Keys !! rest.Keys
    ensures part[t := rest[t]].Keys !! (rest - {t}).Keys
    ensures part[t := rest[t]] + (rest - {t}) == part + rest
  {
  }

  lemma DrainOne(before: Held, part: Held, t: string, c: Condition)
    requires t !in part
    ensures var now := Drained(before, part);
      Drained(before, part[t := c]) == if Lookup(now, t) != c then now[t := c] else now
  {
  }

  lemma ChangeOne(before: Held, part: Held, t: string, c: Condition)
    requires t !in part
    ensures RealChange(before, part[t := c]) == (RealChange(before, part) || Lookup(Drained(before, part), t) != c)
  {
    var next := part[t := c];
    if RealChange(before, part) {
      var u :| u in part && Lookup(before, u) != part[u];
      assert u in next && next[u] == part[u];
    }
    assert next[t] == c;
  }
}

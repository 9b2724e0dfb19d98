/** The plugin scheduler as a machine of atomic steps: the goroutine of `Run`, one
    goroutine per interval group, the workers of every batch, the shared token channel,
    the result channel, the tickers and the two stop/done handshakes with the monitor loop.

    A task is something that calls `runRules`: group `t` for `t < |groups|`, and the boot
    batch for `t == |groups|`. */
module Scheduler {
  import Grouping = IntervalGroups

  /** Rules are named by index; `groups` lists the rules of every interval group. */
  datatype Config = Config(ruleCount: nat, groups: seq<seq<nat>>, concurrency: nat)

  const RESULT_CAPACITY := 1000

  ghost predicate InGroup(c: Config, g: int, p: int) {
    0 <= g < |c.groups| && 0 <= p < |c.groups[g]|
  }

  ghost predicate Configured(c: Config) {
    && (forall g :: 0 <= g < |c.groups| ==> c.groups[g] != [])
    && (forall g, p :: InGroup(c, g, p) ==> c.groups[g][p] < c.ruleCount)
    && (forall g, p, h, q :: InGroup(c, g, p) && InGroup(c, h, q) && c.groups[g][p] == c.groups[h][q] ==> g == h && p == q)
  }

  /** What `Run` hands to the scheduler for the rules of a configuration. */
  function ConfigOf(rules: seq<Grouping.Rule>, groups: seq<Grouping.Group>, concurrency: nat): Config {
    Config(|rules|, seq(|groups|, g requires 0 <= g < |groups| => groups[g].rules), concurrency)
  }

  /** The groups that `Build` makes are fit for scheduling, whatever the intervals are. */
  lemma {:induction false} GroupingConfigures(rules: seq<Grouping.Rule>, global: nat, groups: seq<Grouping.Group>, concurrency: nat)
    requires Grouping.Groups(rules, global, |rules|, groups)
    ensures Configured(ConfigOf(rules, groups, concurrency))
  {
    var c := ConfigOf(rules, groups, concurrency);
    forall g, p | InGroup(c, g, p) ensures c.groups[g][p] < c.ruleCount {
      Grouping.GroupsPartition(rules, global, groups, c.groups[g][p]);
      assert Grouping.Placed(groups, c.groups[g][p], g, p);
    }
    forall g, p, h, q | InGroup(c, g, p) && InGroup(c, h, q) && c.groups[g][p] == c.groups[h][q] ensures g == h && p == q {
      Grouping.GroupsPartition(rules, global, groups, c.groups[g][p]);
      assert Grouping.Placed(groups, c.groups[g][p], g, p) && Grouping.Placed(groups, c.groups[g][p], h, q);
    }
  }

  function Boot(c: Config): nat { |c.groups| }

  /** How many rules a batch of task `t` runs, and which rule is at position `p`. */
  function BatchSize(c: Config, t: nat): nat
    requires t <= Boot(c)
  {
    if t < Boot(c) then |c.groups[t]| else c.ruleCount
  }

  function RuleAt(c: Config, t: nat, p: nat): nat
    requires t <= Boot(c) && p < BatchSize(c, t)
  {
    if t < Boot(c) then c.groups[t][p] else p
  }

  /** The boot batch runs every rule at its own index, and every rule has one place in one group. */
  lemma {:induction false} EveryRuleHasItsPlace(rules: seq<Grouping.Rule>, global: nat, groups: seq<Grouping.Group>, concurrency: nat, i: nat)
    requires Grouping.Groups(rules, global, |rules|, groups) && i < |rules|
    ensures var c := ConfigOf(rules, groups, concurrency);
      && BatchSize(c, Boot(c)) == |rules| && RuleAt(c, Boot(c), i) == i
      && (exists t, p :: InGroup(c, t, p) && RuleAt(c, t, p) == i)
      && (forall t, p, u, q :: InGroup(c, t, p) && InGroup(c, u, q) && RuleAt(c, t, p) == i == RuleAt(c, u, q) ==> t == u && p == q)
  {
    var c := ConfigOf(rules, groups, concurrency);
    Grouping.GroupsPartition(rules, global, groups, i);
    var t, p :| Grouping.Placed(groups, i, t, p);
    assert InGroup(c, t, p) && RuleAt(c, t, p) == i;
    forall t, p, u, q | InGroup(c, t, p) && InGroup(c, u, q) && RuleAt(c, t, p) == i == RuleAt(c, u, q) ensures t == u && p == q {
      assert Grouping.Placed(groups, i, t, p) && Grouping.Placed(groups, i, u, q);
    }
  }

  // ----- state -----

  /** Where `runRules` is, at rule position `k` of its batch. */
  datatype BatchPc =
    | Acquire(k: nat)    // first select: take a token or see the stop
    | Check(k: nat)      // token taken, second select
    | Surrender          // stop seen with the token in hand
    | Launch(k: nat)     // stop not seen, about to start the worker
    | WaitAll            // every worker started
    | WaitAbort          // stop seen

  datatype TaskPc = NotStarted | Select | Batch(pc: BatchPc) | Exited

  datatype MainPc = Booting | Spawning(next: nat) | WaitGroups | WaitEmpty | Closing | Signalling | Finished

  datatype WorkerPc = Launched | Passed | Running | Holding | Releasing | Leaving | Gone

  /** What became of the worker's result. */
  datatype Outcome = Open | NotRun | Sent | Dropped

  datatype Worker = Worker(task: nat, pos: nat, pc: WorkerPc, outcome: Outcome)

  datatype MonitorPc = Looping | StoppingPlugin | Stopped | SawClosed

  datatype State = State(
    main: MainPc,
    tasks: seq<TaskPc>,
    pending: seq<bool>,       // a tick waits in the group's ticker channel
    batches: seq<nat>,        // batches that the group has started
    workers: seq<Worker>,     // every worker ever started
    tokens: nat,              // how full the token channel is
    results: seq<nat>,        // workers whose result is in the result channel
    received: seq<nat>,       // workers whose result the monitor loop has received
    closes: nat,              // how often the result channel was closed
    panicked: bool,           // a send on the closed result channel
    stopped: bool,            // the plugin's stop channel is closed
    done: bool,               // the plugin's done channel is closed
    monitorTold: bool,        // the monitor's stop channel is closed
    monitor: MonitorPc)

  function Init(c: Config): State {
    var groups := |c.groups|;
    State(if groups == 0 then WaitEmpty else Booting,
          seq(groups, _ => NotStarted) + [if groups == 0 then NotStarted else Batch(Acquire(0))],
          seq(groups, _ => false), seq(groups, _ => 0),
          [], 0, [], [], 0, false, false, false, false, Looping)
  }

  // ----- steps -----

  datatype TaskStep = TakeTick | SelectStop | TakeToken | AcquireStop | CheckStop | Unclaim | Start | BatchEnd | AbortEnd

  datatype WorkerStep = CheckRun | Begin | Finish | Send | Drop | Release | Leave

  datatype MainStep = Spawn | AllSpawned | GroupsDone | EmptyStop | CloseResults | SignalDone

  datatype EnvStep = Tick(t: nat) | TellMonitor | Receive | SeeClosed | StopPlugin | StopReturns

  datatype Step = OfTask(t: nat, ts: TaskStep) | OfWorker(w: nat, ws: WorkerStep) | OfMain(ms: MainStep) | OfEnv(es: EnvStep)

  /** All workers of the task have left: what `workers.Wait()` waits for. */
  predicate AllGone(s: State, t: nat) {
    forall w | 0 <= w < |s.workers| :: s.workers[w].task == t ==> s.workers[w].pc == Gone
  }

  predicate TaskEnabled(c: Config, s: State, t: nat, ts: TaskStep) {
    && t < |s.tasks| == Boot(c) + 1 && |s.pending| == |s.batches| == Boot(c)
    && var pc := s.tasks[t];
      match ts
      case TakeTick => pc == Select && t < Boot(c) && s.pending[t]
      case SelectStop => pc == Select && s.stopped
      case TakeToken => pc.Batch? && pc.pc.Acquire? && s.tokens < c.concurrency
      case AcquireStop => pc.Batch? && pc.pc.Acquire? && s.stopped
      case CheckStop => pc.Batch? && pc.pc.Check?
      case Unclaim => pc.Batch? && pc.pc.Surrender? && s.tokens > 0
      case Start => pc.Batch? && pc.pc.Launch?
      case BatchEnd => pc == Batch(WaitAll) && AllGone(s, t)
      case AbortEnd => pc == Batch(WaitAbort) && AllGone(s, t)
  }

  function ApplyTask(c: Config, s: State, t: nat, ts: TaskStep): State
    requires TaskEnabled(c, s, t, ts)
  {
    match ts
    case TakeTick => s.(tasks := s.tasks[t := Batch(Acquire(0))], pending := s.pending[t := false],
                        batches := s.batches[t := s.batches[t] + 1])
    case SelectStop => s.(tasks := s.tasks[t := Exited])
    case TakeToken => s.(tasks := s.tasks[t := Batch(Check(s.tasks[t].pc.k))], tokens := s.tokens + 1)
    case AcquireStop => s.(tasks := s.tasks[t := Batch(WaitAbort)])
    case CheckStop => s.(tasks := s.tasks[t := Batch(if s.stopped then Surrender else Launch(s.tasks[t].pc.k))])
    case Unclaim => s.(tasks := s.tasks[t := Batch(WaitAbort)], tokens := s.tokens - 1)
    case Start =>
      var k := s.tasks[t].pc.k;
      s.(tasks := s.tasks[t := Batch(if k + 1 < BatchSize(c, t) then Acquire(k + 1) else WaitAll)],
         workers := s.workers + [Worker(t, k, Launched, Open)])
    case BatchEnd =>
      if t < Boot(c) then s.(tasks := s.tasks[t := Select])
      else s.(tasks := s.tasks[t := Exited], main := Spawning(0))
    case AbortEnd =>
      if t < Boot(c) then s.(tasks := s.tasks[t := Exited])
      else s.(tasks := s.tasks[t := Exited], main := Closing)
  }

  predicate WorkerEnabled(s: State, w: nat, ws: WorkerStep) {
    && w < |s.workers|
    && var pc := s.workers[w].pc;
      match ws
      case CheckRun => pc == Launched
      case Begin => pc == Passed
      case Finish => pc == Running
      case Send => pc == Holding && |s.results| < RESULT_CAPACITY
      case Drop => pc == Holding && s.stopped
      case Release => pc == Releasing && s.tokens > 0
      case Leave => pc == Leaving
  }

  function ApplyWorker(s: State, w: nat, ws: WorkerStep): State
    requires WorkerEnabled(s, w, ws)
  {
    var x := s.workers[w];
    match ws
    case CheckRun =>
      s.(workers := s.workers[w := if s.stopped then x.(pc := Releasing, outcome := NotRun) else x.(pc := Passed)])
    case Begin => s.(workers := s.workers[w := x.(pc := Running)])
    case Finish => s.(workers := s.workers[w := x.(pc := Holding)])
    case Send => s.(workers := s.workers[w := x.(pc := Releasing, outcome := Sent)], results := s.results + [w],
                    panicked := s.panicked || s.closes > 0)
    case Drop => s.(workers := s.workers[w := x.(pc := Releasing, outcome := Dropped)])
    case Release => s.(workers := s.workers[w := x.(pc := Leaving)], tokens := s.tokens - 1)
    case Leave => s.(workers := s.workers[w := x.(pc := Gone)])
  }

  predicate MainEnabled(c: Config, s: State, ms: MainStep) {
    && |s.tasks| == Boot(c) + 1
    && match ms
       case Spawn => s.main.Spawning? && s.main.next < Boot(c)
       case AllSpawned => s.main.Spawning? && s.main.next == Boot(c)
       case GroupsDone => s.main == WaitGroups && forall t | 0 <= t < Boot(c) :: s.tasks[t] == Exited
       case EmptyStop => s.main == WaitEmpty && s.stopped
       case CloseResults => s.main == Closing
       case SignalDone => s.main == Signalling
  }

  function ApplyMain(c: Config, s: State, ms: MainStep): State
    requires MainEnabled(c, s, ms)
  {
    match ms
    case Spawn => s.(tasks := s.tasks[s.main.next := Select], main := Spawning(s.main.next + 1))
    case AllSpawned => s.(main := WaitGroups)
    case GroupsDone => s.(main := Closing)
    case EmptyStop => s.(main := Closing)
    case CloseResults => s.(closes := s.closes + 1, main := Signalling)
    case SignalDone => s.(done := true, main := Finished)
  }

  predicate EnvEnabled(s: State, es: EnvStep) {
    match es
    case Tick(t) => t < |s.pending|
    case TellMonitor => !s.monitorTold
    case Receive => s.monitor == Looping && s.results != []
    case SeeClosed => s.monitor == Looping && s.results == [] && s.closes > 0
    case StopPlugin => s.monitor == Looping && s.monitorTold
    case StopReturns => s.monitor == StoppingPlugin && s.done
  }

  function ApplyEnv(s: State, es: EnvStep): State
    requires EnvEnabled(s, es)
  {
    match es
    case Tick(t) => s.(pending := s.pending[t := true])
    case TellMonitor => s.(monitorTold := true)
    case Receive => s.(received := s.received + [s.results[0]], results := s.results[1..])
    case SeeClosed => s.(monitor := SawClosed)
    case StopPlugin => s.(stopped := true, monitor := StoppingPlugin)
    case StopReturns => s.(monitor := Stopped)
  }

  predicate Enabled(c: Config, s: State, step: Step) {
    match step
    case OfTask(t, ts) => TaskEnabled(c, s, t, ts)
    case OfWorker(w, ws) => WorkerEnabled(s, w, ws)
    case OfMain(ms) => MainEnabled(c, s, ms)
    case OfEnv(es) => EnvEnabled(s, es)
  }

  function Apply(c: Config, s: State, step: Step): State
    requires Enabled(c, s, step)
  {
    match step
    case OfTask(t, ts) => ApplyTask(c, s, t, ts)
    case OfWorker(w, ws) => ApplyWorker(s, w, ws)
    case OfMain(ms) => ApplyMain(c, s, ms)
    case OfEnv(es) => ApplyEnv(s, es)
  }

  ghost predicate Follows(c: Config, states: seq<State>, steps: seq<Step>, k: nat)
    requires k < |steps| && |states| == |steps| + 1
  {
    Enabled(c, states[k], steps[k]) && states[k + 1] == Apply(c, states[k], steps[k])
  }

  /** `states` is what the machine goes through when it takes `steps` from `states[0]`. */
  ghost predicate Runs(c: Config, states: seq<State>, steps: seq<Step>) {
    |states| == |steps| + 1 && forall k :: 0 <= k < |steps| ==> Follows(c, states, steps, k)
  }

  ghost predicate Execution(c: Config, states: seq<State>, steps: seq<Step>) {
    Configured(c) && Runs(c, states, steps) && states[0] == Init(c)
  }
}

/** What every step of the scheduler keeps, and what follows for every execution. */
module SchedulerSafety {
  import opened Sums
  import opened Scheduler

  // ----- the invariant, in parts -----

  ghost predicate Shape(c: Config, s: State) {
    |s.tasks| == Boot(c) + 1 && |s.pending| == |s.batches| == Boot(c)
  }

  predicate Idle(pc: TaskPc) { pc == NotStarted || pc == Exited }

  ghost predicate TaskOk(c: Config, s: State, t: nat)
    requires Shape(c, s) && t <= Boot(c)
  {
    match s.tasks[t]
    case NotStarted => true
    case Select => t < Boot(c)
    case Exited => t < Boot(c) ==> s.stopped
    case Batch(pc) =>
      match pc
      case Surrender => s.stopped
      case WaitAbort => s.stopped
      case WaitAll => true
      case _ => pc.k < BatchSize(c, t)
  }

  ghost predicate TasksOk(c: Config, s: State) {
    Shape(c, s) && forall t :: 0 <= t <= Boot(c) ==> TaskOk(c, s, t)
  }

  ghost predicate MainOk(c: Config, s: State)
    requires Shape(c, s)
  {
    match s.main
    case Booting => Boot(c) > 0 && s.tasks[Boot(c)].Batch? && forall t :: 0 <= t < Boot(c) ==> s.tasks[t] == NotStarted
    case Spawning(n) => Boot(c) > 0 && n <= Boot(c) && s.tasks[Boot(c)] == Exited &&
                        forall t :: 0 <= t < Boot(c) ==> (s.tasks[t] == NotStarted <==> t >= n)
    case WaitGroups => Boot(c) > 0 && s.tasks[Boot(c)] == Exited && forall t :: 0 <= t < Boot(c) ==> s.tasks[t] != NotStarted
    case WaitEmpty => Boot(c) == 0 && s.tasks[0] == NotStarted
    case _ => s.stopped && forall t :: 0 <= t <= Boot(c) ==> Idle(s.tasks[t])
  }

  /** The positions below this one may have a live worker. */
  ghost function Progress(c: Config, t: nat, pc: BatchPc): nat
    requires t <= Boot(c)
  {
    if pc.Acquire? || pc.Check? || pc.Launch? then pc.k else BatchSize(c, t)
  }

  ghost predicate WorkerOk(c: Config, s: State, w: nat)
    requires Shape(c, s) && w < |s.workers|
  {
    var x := s.workers[w];
    && x.task <= Boot(c) && x.pos < BatchSize(c, x.task)
    && (x.pc != Gone ==> s.tasks[x.task].Batch? && x.pos < Progress(c, x.task, s.tasks[x.task].pc))
    && (x.outcome == Open <==> x.pc == Launched || x.pc == Passed || x.pc == Running || x.pc == Holding)
    && (x.outcome == NotRun || x.outcome == Dropped ==> s.stopped)
  }

  /** Both are alive and belong to the same task. */
  predicate Colleagues(x: Worker, y: Worker) {
    x.pc != Gone && y.pc != Gone && x.task == y.task
  }

  ghost predicate WorkersOk(c: Config, s: State)
    requires Shape(c, s)
  {
    && (forall w :: 0 <= w < |s.workers| ==> WorkerOk(c, s, w))
    && (forall v, w :: 0 <= v < w < |s.workers| && Colleagues(s.workers[v], s.workers[w]) ==>
          s.workers[v].pos != s.workers[w].pos)
  }

  function TaskTokens(pc: TaskPc): nat {
    if pc.Batch? && (pc.pc.Check? || pc.pc.Surrender? || pc.pc.Launch?) then 1 else 0
  }

  function WorkerTokens(x: Worker): nat {
    if x.pc == Leaving || x.pc == Gone then 0 else 1
  }

  /** The token channel holds one token for every scheduler between acquire and launch and
      for every worker that has not released, and never more than it has room for. */
  ghost predicate TokensOk(c: Config, s: State) {
    s.tokens == Sum(s.tasks, TaskTokens) + Sum(s.workers, WorkerTokens) <= c.concurrency
  }

  /** The results that were ever sent are those of the workers that say so, each once. */
  ghost predicate ResultsOk(s: State) {
    var log := s.received + s.results;
    && (forall i, j :: 0 <= i < j < |log| ==> log[i] != log[j])
    && (forall i :: 0 <= i < |log| ==> log[i] < |s.workers| && s.workers[log[i]].outcome == Sent)
    && (forall w :: 0 <= w < |s.workers| && s.workers[w].outcome == Sent ==> w in log)
  }

  ghost predicate SignalsOk(s: State) {
    && s.closes == (if s.main == Signalling || s.main == Finished then 1 else 0)
    && (s.done <==> s.main == Finished)
    && !s.panicked
    && s.monitor != SawClosed
    && (s.monitor == Looping <==> !s.stopped)
    && (s.monitor == Stopped ==> s.done)
  }

  ghost predicate Inv(c: Config, s: State) {
    Configured(c) && TasksOk(c, s) && MainOk(c, s) && WorkersOk(c, s) && TokensOk(c, s) && ResultsOk(s) && SignalsOk(s)
  }

  // ----- it holds at the start -----

  lemma {:induction false} SumOfZeros<T>(s: seq<T>, f: T -> nat)
    requires forall i :: 0 <= i < |s| ==> f(s[i]) == 0
    ensures Sum(s, f) == 0
  {
    if s != [] { SumOfZeros(s[..|s| - 1], f); }
  }

  lemma InitHolds(c: Config)
    requires Configured(c)
    ensures Inv(c, Init(c))
  {
    InitTasks(c);
    InitWorkers(c);
  }

  lemma InitTasks(c: Config)
    requires Configured(c)
    ensures TasksOk(c, Init(c)) && MainOk(c, Init(c)) && SignalsOk(Init(c))
  {
    if |c.groups| > 0 { assert InGroup(c, 0, 0); }
  }

  lemma InitWorkers(c: Config)
    ensures Shape(c, Init(c)) && WorkersOk(c, Init(c)) && TokensOk(c, Init(c)) && ResultsOk(Init(c))
  {
    SumOfZeros(Init(c).tasks, TaskTokens);
  }

  // ----- task steps -----

  lemma TaskKeepsTasks(c: Config, s: State, t: nat, ts: TaskStep)
    requires Configured(c) && TasksOk(c, s) && TaskEnabled(c, s, t, ts)
    ensures TasksOk(c, ApplyTask(c, s, t, ts))
  {
    var s' := ApplyTask(c, s, t, ts);
    assert TaskOk(c, s, t);
    forall u | 0 <= u <= Boot(c) ensures TaskOk(c, s', u) { assert TaskOk(c, s, u); }
  }

  lemma TaskKeepsMain(c: Config, s: State, t: nat, ts: TaskStep)
    requires TasksOk(c, s) && MainOk(c, s) && TaskEnabled(c, s, t, ts)
    ensures var s' := ApplyTask(c, s, t, ts); Shape(c, s') && MainOk(c, s')
  {
    assert TaskOk(c, s, t);
  }

  lemma TaskKeepsSignals(c: Config, s: State, t: nat, ts: TaskStep)
    requires TasksOk(c, s) && MainOk(c, s) && SignalsOk(s) && TaskEnabled(c, s, t, ts)
    ensures SignalsOk(ApplyTask(c, s, t, ts))
  {
    assert TaskOk(c, s, t);
  }

  lemma TaskKeepsResults(c: Config, s: State, t: nat, ts: TaskStep)
    requires ResultsOk(s) && TaskEnabled(c, s, t, ts)
    ensures ResultsOk(ApplyTask(c, s, t, ts))
  {
  }

  /** The worker of a task that starts one more, or that goes on in its batch, stays in order. */
  lemma TaskKeepsWorker(c: Config, s: State, t: nat, ts: TaskStep, w: nat)
    requires Shape(c, s) && t <= Boot(c) && TaskOk(c, s, t) && TaskEnabled(c, s, t, ts)
    requires w < |ApplyTask(c, s, t, ts).workers| && (w < |s.workers| ==> WorkerOk(c, s, w))
    ensures Shape(c, ApplyTask(c, s, t, ts)) && WorkerOk(c, ApplyTask(c, s, t, ts), w)
  {
  }

  lemma TaskKeepsWorkers(c: Config, s: State, t: nat, ts: TaskStep)
    requires TasksOk(c, s) && WorkersOk(c, s) && TaskEnabled(c, s, t, ts)
    ensures var s' := ApplyTask(c, s, t, ts); Shape(c, s') && WorkersOk(c, s')
  {
    var s' := ApplyTask(c, s, t, ts);
    assert TaskOk(c, s, t);
    forall w | 0 <= w < |s'.workers| ensures WorkerOk(c, s', w) {
      if w < |s.workers| { assert WorkerOk(c, s, w); }
      TaskKeepsWorker(c, s, t, ts, w);
    }
    TaskKeepsOrStarts(c, s, t, ts);
    forall v, w | 0 <= v < w < |s'.workers| && Colleagues(s'.workers[v], s'.workers[w])
      ensures s'.workers[v].pos != s'.workers[w].pos
    {
      assert WorkerOk(c, s, v);
      if w < |s.workers| { assert Colleagues(s.workers[v], s.workers[w]); }
    }
  }

  /** A token moves from the task to the worker that it starts; otherwise tasks take and return it. */
  lemma TaskTokensMove(c: Config, s: State, t: nat, ts: TaskStep)
    requires TaskEnabled(c, s, t, ts)
    ensures var s' := ApplyTask(c, s, t, ts);
      && t < |s'.tasks|
      && s'.tokens - s.tokens == TaskTokens(s'.tasks[t]) - TaskTokens(s.tasks[t]) + (if ts == Start then 1 else 0)
  {
  }

  lemma TaskTokensFit(c: Config, s: State, t: nat, ts: TaskStep)
    requires TaskEnabled(c, s, t, ts)
    ensures ApplyTask(c, s, t, ts).tokens > s.tokens ==> ApplyTask(c, s, t, ts).tokens <= c.concurrency
  {
  }

  lemma TaskChangesItself(c: Config, s: State, t: nat, ts: TaskStep)
    requires TaskEnabled(c, s, t, ts)
    ensures var s' := ApplyTask(c, s, t, ts);
      && |s'.tasks| == |s.tasks| && s'.tasks == s.tasks[t := s'.tasks[t]]
      && (ts != Start ==> s'.workers == s.workers)
  {
  }

  lemma TaskKeepsTokens(c: Config, s: State, t: nat, ts: TaskStep)
    requires TokensOk(c, s) && TaskEnabled(c, s, t, ts)
    ensures TokensOk(c, ApplyTask(c, s, t, ts))
  {
    var s' := ApplyTask(c, s, t, ts);
    TaskTokensMove(c, s, t, ts);
    TaskTokensFit(c, s, t, ts);
    TaskChangesItself(c, s, t, ts);
    SumUpdate(s.tasks, t, s'.tasks[t], TaskTokens);
    if ts == Start {
      SumAppend(s.workers, s'.workers[|s.workers|], WorkerTokens);
    }
  }

  // ----- worker steps -----

  lemma WorkerKeepsTasks(c: Config, s: State, w: nat, ws: WorkerStep)
    requires TasksOk(c, s) && MainOk(c, s) && WorkerEnabled(s, w, ws)
    ensures var s' := ApplyWorker(s, w, ws); TasksOk(c, s') && MainOk(c, s')
  {
    var s' := ApplyWorker(s, w, ws);
    forall u | 0 <= u <= Boot(c) ensures TaskOk(c, s', u) { assert TaskOk(c, s, u); }
  }

  lemma WorkerKeepsSignals(c: Config, s: State, w: nat, ws: WorkerStep)
    requires Shape(c, s) && MainOk(c, s) && SignalsOk(s) && WorkersOk(c, s) && WorkerEnabled(s, w, ws)
    ensures SignalsOk(ApplyWorker(s, w, ws))
  {
    assert WorkerOk(c, s, w);
  }

  lemma WorkerKeepsWorkers(c: Config, s: State, w: nat, ws: WorkerStep)
    requires Inv(c, s) && WorkerEnabled(s, w, ws)
    ensures var s' := ApplyWorker(s, w, ws); Shape(c, s') && WorkersOk(c, s')
  {
    var s' := ApplyWorker(s, w, ws);
    forall v | 0 <= v < |s'.workers| ensures WorkerOk(c, s', v) {
      assert WorkerOk(c, s, v);
      WorkerKeepsWorker(c, s, w, ws, v);
    }
    WorkerKeepsPlaces(s, w, ws);
  }

  lemma WorkerKeepsWorker(c: Config, s: State, w: nat, ws: WorkerStep, v: nat)
    requires Shape(c, s) && WorkerEnabled(s, w, ws) && v < |s.workers| && WorkerOk(c, s, v) && WorkerOk(c, s, w)
    ensures var s' := ApplyWorker(s, w, ws); Shape(c, s') && v < |s'.workers| && WorkerOk(c, s', v)
  {
  }

  lemma WorkerKeepsPlaces(s: State, w: nat, ws: WorkerStep)
    requires WorkerEnabled(s, w, ws)
    ensures var s' := ApplyWorker(s, w, ws);
      && |s'.workers| == |s.workers|
      && forall v :: 0 <= v < |s.workers| ==>
           s'.workers[v].task == s.workers[v].task && s'.workers[v].pos == s.workers[v].pos &&
           (s'.workers[v].pc != Gone ==> s.workers[v].pc != Gone)
  {
  }

  lemma WorkerKeepsTokens(c: Config, s: State, w: nat, ws: WorkerStep)
    requires TokensOk(c, s) && WorkerEnabled(s, w, ws)
    ensures TokensOk(c, ApplyWorker(s, w, ws))
  {
    var s' := ApplyWorker(s, w, ws);
    SumUpdate(s.workers, w, s'.workers[w], WorkerTokens);
    assert s'.workers == s.workers[w := s'.workers[w]];
  }

  lemma WorkerKeepsResults(c: Config, s: State, w: nat, ws: WorkerStep)
    requires Shape(c, s) && WorkersOk(c, s) && ResultsOk(s) && WorkerEnabled(s, w, ws)
    ensures ResultsOk(ApplyWorker(s, w, ws))
  {
    var s' := ApplyWorker(s, w, ws);
    assert WorkerOk(c, s, w);
    if ws == Send {
      SendKeepsResults(s, w);
    } else {
      assert forall v :: 0 <= v < |s.workers| ==> (s'.workers[v].outcome == Sent <==> s.workers[v].outcome == Sent);
    }
  }

  lemma SendKeepsResults(s: State, w: nat)
    requires ResultsOk(s) && WorkerEnabled(s, w, Send) && s.workers[w].outcome != Sent
    ensures ResultsOk(ApplyWorker(s, w, Send))
  {
    var s', log := ApplyWorker(s, w, Send), s.received + s.results;
    assert s'.received + s'.results == log + [w];
    assert forall v :: v in log ==> v in log + [w];
  }

  // ----- steps of the main goroutine and of the surroundings -----

  /** The parts about workers only look at the workers, the tasks and the stop. */
  lemma WorkersStay(c: Config, s: State, s': State)
    requires TasksOk(c, s) && WorkersOk(c, s) && Shape(c, s') && s'.workers == s.workers && (s.stopped ==> s'.stopped)
    requires forall t :: 0 <= t <= Boot(c) && s.tasks[t].Batch? ==> s'.tasks[t] == s.tasks[t]
    ensures WorkersOk(c, s')
  {
    forall w | 0 <= w < |s'.workers| ensures WorkerOk(c, s', w) { assert WorkerOk(c, s, w); }
  }

  lemma MainKeepsTasks(c: Config, s: State, ms: MainStep)
    requires TasksOk(c, s) && MainOk(c, s) && SignalsOk(s) && MainEnabled(c, s, ms)
    ensures var s' := ApplyMain(c, s, ms); TasksOk(c, s') && MainOk(c, s') && SignalsOk(s')
  {
    var s' := ApplyMain(c, s, ms);
    assert TaskOk(c, s, 0);
    forall u | 0 <= u <= Boot(c) ensures TaskOk(c, s', u) { assert TaskOk(c, s, u); }
  }

  lemma MainKeeps(c: Config, s: State, ms: MainStep)
    requires Inv(c, s) && MainEnabled(c, s, ms)
    ensures Inv(c, ApplyMain(c, s, ms))
  {
    var s' := ApplyMain(c, s, ms);
    MainKeepsTasks(c, s, ms);
    WorkersStay(c, s, s');
    if ms == Spawn {
      SumUpdate(s.tasks, s.main.next, Select, TaskTokens);
    }
  }

  lemma EnvKeepsTasks(c: Config, s: State, es: EnvStep)
    requires TasksOk(c, s) && MainOk(c, s) && SignalsOk(s) && EnvEnabled(s, es)
    ensures var s' := ApplyEnv(s, es); TasksOk(c, s') && MainOk(c, s') && SignalsOk(s')
  {
    var s' := ApplyEnv(s, es);
    forall u | 0 <= u <= Boot(c) ensures TaskOk(c, s', u) { assert TaskOk(c, s, u); }
  }

  lemma EnvKeeps(c: Config, s: State, es: EnvStep)
    requires Inv(c, s) && EnvEnabled(s, es)
    ensures Inv(c, ApplyEnv(s, es))
  {
    EnvKeepsTasks(c, s, es);
    EnvKeepsThem(s, es);
    WorkersStay(c, s, ApplyEnv(s, es));
    EnvKeepsResults(s, es);
  }

  lemma EnvKeepsResults(s: State, es: EnvStep)
    requires ResultsOk(s) && EnvEnabled(s, es)
    ensures ResultsOk(ApplyEnv(s, es))
  {
    var s' := ApplyEnv(s, es);
    assert s'.received + s'.results == s.received + s.results;
  }

  lemma StepKeeps(c: Config, s: State, step: Step)
    requires Inv(c, s) && Enabled(c, s, step)
    ensures Inv(c, Apply(c, s, step))
  {
    match step
    case OfTask(t, ts) =>
      TaskKeepsTasks(c, s, t, ts);
      TaskKeepsMain(c, s, t, ts);
      TaskKeepsSignals(c, s, t, ts);
      TaskKeepsResults(c, s, t, ts);
      TaskKeepsWorkers(c, s, t, ts);
      TaskKeepsTokens(c, s, t, ts);
    case OfWorker(w, ws) =>
      WorkerKeepsTasks(c, s, w, ws);
      WorkerKeepsSignals(c, s, w, ws);
      WorkerKeepsWorkers(c, s, w, ws);
      WorkerKeepsTokens(c, s, w, ws);
      WorkerKeepsResults(c, s, w, ws);
    case OfMain(ms) => MainKeeps(c, s, ms);
    case OfEnv(es) => EnvKeeps(c, s, es);
  }

  lemma {:induction false} ExecutionInv(c: Config, states: seq<State>, steps: seq<Step>, k: nat)
    requires Execution(c, states, steps) && k < |states|
    ensures Inv(c, states[k])
  {
    if k == 0 {
      InitHolds(c);
    } else {
      ExecutionInv(c, states, steps, k - 1);
      assert Follows(c, states, steps, k - 1);
      StepKeeps(c, states[k - 1], steps[k - 1]);
    }
  }

  // ----- concurrency -----

  function InRun(x: Worker): nat { if x.pc == Running then 1 else 0 }

  /** Across all groups, never more rules run at a time than the configuration allows; the
      tokens are exactly those of schedulers about to launch and of workers not yet released. */
  lemma ConcurrencyIsBounded(c: Config, states: seq<State>, steps: seq<Step>, k: nat)
    requires Execution(c, states, steps) && k < |states|
    ensures var s := states[k];
      && s.tokens == Sum(s.tasks, TaskTokens) + Sum(s.workers, WorkerTokens)
      && Sum(s.workers, InRun) <= s.tokens <= c.concurrency
  {
    ExecutionInv(c, states, steps, k);
    SumMonotone(states[k].workers, InRun, WorkerTokens);
  }

  /** Every path that ends a batch early gives its token back: a task that runs no batch, and
      so every finished plugin, owes none. */
  lemma {:induction false} NoTokenIsLost(c: Config, states: seq<State>, steps: seq<Step>, k: nat)
    requires Execution(c, states, steps) && k < |states|
    requires states[k].main == Finished
    ensures states[k].tokens == 0
  {
    ExecutionInv(c, states, steps, k);
    var s := states[k];
    forall w | 0 <= w < |s.workers| ensures WorkerTokens(s.workers[w]) == 0 { assert WorkerOk(c, s, w); }
    SumOfZeros(s.workers, WorkerTokens);
    SumOfZeros(s.tasks, TaskTokens);
  }

  // ----- a rule never overlaps itself -----

  /** Two workers that are alive at the same time run different rules. */
  lemma {:induction false} RulesNeverOverlap(c: Config, states: seq<State>, steps: seq<Step>, k: nat, v: nat, w: nat)
    requires Execution(c, states, steps) && k < |states|
    requires var ws := states[k].workers; v < w < |ws| && ws[v].pc != Gone && ws[w].pc != Gone
    ensures var ws := states[k].workers;
      && ws[v].task <= Boot(c) && ws[v].pos < BatchSize(c, ws[v].task)
      && ws[w].task <= Boot(c) && ws[w].pos < BatchSize(c, ws[w].task)
      && RuleAt(c, ws[v].task, ws[v].pos) != RuleAt(c, ws[w].task, ws[w].pos)
  {
    ExecutionInv(c, states, steps, k);
    var s := states[k];
    assert WorkerOk(c, s, v) && WorkerOk(c, s, w);
    var x, y := s.workers[v], s.workers[w];
    if x.task == y.task {
      assert Colleagues(x, y);
    }
    if x.task < Boot(c) && y.task < Boot(c) {
      assert InGroup(c, x.task, x.pos) && InGroup(c, y.task, y.pos);
    }
  }

  /** A task that runs no batch has no worker left, and no group starts before the boot batch
      is over: every batch is waited out. */
  lemma {:induction false} BatchesAreWaitedOut(c: Config, states: seq<State>, steps: seq<Step>, k: nat, t: nat)
    requires Execution(c, states, steps) && k < |states|
    ensures var s := states[k];
      && |s.tasks| == Boot(c) + 1
      && (t <= Boot(c) && !s.tasks[t].Batch? ==> AllGone(s, t))
      && (t < Boot(c) && s.tasks[t] != NotStarted ==> AllGone(s, Boot(c)))
  {
    ExecutionInv(c, states, steps, k);
    var s := states[k];
    forall w | 0 <= w < |s.workers| && s.workers[w].pc != Gone
      ensures s.workers[w].task <= Boot(c) && s.tasks[s.workers[w].task].Batch?
    {
      assert WorkerOk(c, s, w);
    }
  }

  // ----- the result channel -----

  ghost predicate AllQuiet(s: State) {
    && (forall w :: 0 <= w < |s.workers| ==> s.workers[w].pc == Gone)
    && (forall t :: 0 <= t < |s.tasks| ==> Idle(s.tasks[t]))
  }

  /** The result channel is closed at most once, only after the plugin was told to stop and
      only when no worker is left and no task can start one; nothing is ever sent on the closed
      channel, and the monitor loop never finds it closed. */
  lemma ClosedOnceAndLast(c: Config, states: seq<State>, steps: seq<Step>, k: nat)
    requires Execution(c, states, steps) && k < |states|
    ensures var s := states[k];
      && s.closes <= 1 && (s.done ==> s.closes == 1) && !s.panicked && s.monitor != SawClosed
      && (s.closes == 1 ==> s.stopped && AllQuiet(s))
      && (k < |steps| && steps[k].OfWorker? && steps[k].ws == Send ==> s.closes == 0)
  {
    ExecutionInv(c, states, steps, k);
    var s := states[k];
    if k < |steps| {
      assert Follows(c, states, steps, k);
    }
    if s.closes == 1 {
      forall w | 0 <= w < |s.workers| ensures s.workers[w].pc == Gone { assert WorkerOk(c, s, w); }
    }
  }

  predicate RunFinished(x: Worker) {
    x.pc == Holding || x.outcome == Sent || x.outcome == Dropped
  }

  /** Every finished run has exactly one result: still in the worker's hand, or sent and then
      in exactly one place of what was received and is queued, or dropped after the stop. */
  lemma {:induction false} EveryRunHasOneResult(c: Config, states: seq<State>, steps: seq<Step>, k: nat, w: nat)
    requires Execution(c, states, steps) && k < |states| && w < |states[k].workers|
    ensures var s := states[k]; var log := s.received + s.results; var x := s.workers[w];
      && (x.outcome == Sent <==> w in log)
      && (forall i, j :: 0 <= i < |log| && 0 <= j < |log| && log[i] == w == log[j] ==> i == j)
      && (x.outcome == Dropped ==> s.stopped)
      && (RunFinished(x) && !s.stopped ==> x.pc == Holding || w in log)
      && (x.pc == Holding ==> w !in log)
  {
    ExecutionInv(c, states, steps, k);
    assert WorkerOk(c, states[k], w);
  }

  // ----- after the stop -----

  predicate PassedCheck(x: Worker) {
    x.pc == Passed || x.pc == Running || x.outcome == Sent || x.outcome == Dropped || x.pc == Holding
  }

  /** A run that begins after the stop belongs to a worker that passed its own stop check before it. */
  lemma {:induction false} LateRunsPassedEarly(c: Config, states: seq<State>, steps: seq<Step>, k: nat, w: nat)
    requires Runs(c, states, steps) && states[0].stopped
    requires k < |states| && w < |states[k].workers| && PassedCheck(states[k].workers[w])
    ensures states[k].stopped
    ensures w < |states[0].workers| && PassedCheck(states[0].workers[w])
  {
    StopIsForever(c, states, steps, k);
    if k > 0 {
      StopIsForever(c, states, steps, k - 1);
      assert Follows(c, states, steps, k - 1);
      NoLatePass(c, states[k - 1], steps[k - 1], w);
      LateRunsPassedEarly(c, states, steps, k - 1, w);
    }
  }

  lemma NoLatePass(c: Config, s: State, step: Step, w: nat)
    requires s.stopped && Enabled(c, s, step)
    requires var ws := Apply(c, s, step).workers; w < |ws| && PassedCheck(ws[w])
    ensures w < |s.workers| && PassedCheck(s.workers[w])
  {
    match step
    case OfTask(t, ts) => TaskKeepsOrStarts(c, s, t, ts);
    case OfWorker(v, ws) => WorkerPassesNotLate(s, v, ws, w);
    case OfMain(ms) => MainKeepsThem(c, s, ms);
    case OfEnv(es) => EnvKeepsThem(s, es);
  }

  lemma WorkerPassesNotLate(s: State, v: nat, ws: WorkerStep, w: nat)
    requires s.stopped && WorkerEnabled(s, v, ws) && w < |s.workers|
    ensures var s' := ApplyWorker(s, v, ws); |s'.workers| == |s.workers| && (PassedCheck(s'.workers[w]) ==> PassedCheck(s.workers[w]))
  {
  }

  lemma MainKeepsThem(c: Config, s: State, ms: MainStep)
    requires MainEnabled(c, s, ms)
    ensures ApplyMain(c, s, ms).workers == s.workers
  {
  }

  lemma EnvKeepsThem(s: State, es: EnvStep)
    requires EnvEnabled(s, es)
    ensures var s' := ApplyEnv(s, es); s'.workers == s.workers && s'.tasks == s.tasks && s'.tokens == s.tokens
  {
  }

  lemma TaskKeepsOrStarts(c: Config, s: State, t: nat, ts: TaskStep)
    requires TaskEnabled(c, s, t, ts)
    ensures var ws := ApplyTask(c, s, t, ts).workers;
      ws == s.workers || (|ws| == |s.workers| + 1 && ws[..|s.workers|] == s.workers && ws[|s.workers|].pc == Launched
                          && ws[|s.workers|].outcome == Open)
  {
  }

  lemma {:induction false} StopIsForever(c: Config, states: seq<State>, steps: seq<Step>, k: nat)
    requires Runs(c, states, steps) && states[0].stopped && k < |states|
    ensures states[k].stopped
  {
    if k > 0 {
      StopIsForever(c, states, steps, k - 1);
      assert Follows(c, states, steps, k - 1);
    }
  }

  // ----- ticks -----

  /** A batch that is still running when stretch `0..m` of a run ends is followed, until the
      next tick, by at most one more batch, however many ticks fired during the stretch. */
  lemma {:induction false} AtMostOneCatchUp(c: Config, states: seq<State>, steps: seq<Step>, t: nat, m: nat)
    requires Runs(c, states, steps) && m < |states| && Shape(c, states[0]) && t < Boot(c)
    requires forall k :: 0 <= k < m ==> |states[k].tasks| > t && states[k].tasks[t].Batch?
    requires forall k :: m <= k < |steps| ==> steps[k] != OfEnv(Tick(t))
    ensures Shape(c, states[|steps|])
    ensures states[|steps|].batches[t] <= states[0].batches[t] + 1
  {
    NoBatchDuringBatch(c, states, steps, t, m);
    NoTickNoSecondBatch(c, states, steps, t, m, |steps|);
  }

  lemma {:induction false} NoBatchDuringBatch(c: Config, states: seq<State>, steps: seq<Step>, t: nat, k: nat)
    requires Runs(c, states, steps) && k < |states| && Shape(c, states[0]) && t < Boot(c)
    requires forall j :: 0 <= j < k ==> |states[j].tasks| > t && states[j].tasks[t].Batch?
    ensures Shape(c, states[k]) && states[k].batches[t] == states[0].batches[t]
  {
    if k > 0 {
      NoBatchDuringBatch(c, states, steps, t, k - 1);
      assert Follows(c, states, steps, k - 1);
      BatchStartsNone(c, states[k - 1], steps[k - 1], t);
    }
  }

  lemma BatchStartsNone(c: Config, s: State, step: Step, t: nat)
    requires Shape(c, s) && t < Boot(c) && s.tasks[t].Batch? && Enabled(c, s, step)
    ensures Shape(c, Apply(c, s, step)) && Apply(c, s, step).batches[t] == s.batches[t]
  {
    if step.OfTask? {
      TaskBatchStartsNone(c, s, step.t, step.ts, t);
    } else {
      OnlyTasksStartBatches(c, s, step);
    }
  }

  lemma OnlyTasksStartBatches(c: Config, s: State, step: Step)
    requires Shape(c, s) && Enabled(c, s, step) && !step.OfTask?
    ensures var s' := Apply(c, s, step);
      && |s'.tasks| == |s.tasks| && s'.batches == s.batches
      && s'.pending == if step.OfEnv? && step.es.Tick? then s.pending[step.es.t := true] else s.pending
  {
    match step
    case OfWorker(w, ws) => WorkerStartsNoBatch(s, w, ws);
    case OfMain(ms) => MainStartsNoBatch(c, s, ms);
    case OfEnv(_) =>
  }

  lemma WorkerStartsNoBatch(s: State, w: nat, ws: WorkerStep)
    requires WorkerEnabled(s, w, ws)
    ensures var s' := ApplyWorker(s, w, ws); s'.tasks == s.tasks && s'.batches == s.batches && s'.pending == s.pending
  {
  }

  lemma MainStartsNoBatch(c: Config, s: State, ms: MainStep)
    requires MainEnabled(c, s, ms)
    ensures var s' := ApplyMain(c, s, ms); |s'.tasks| == |s.tasks| && s'.batches == s.batches && s'.pending == s.pending
  {
  }

  lemma TaskBatchStartsNone(c: Config, s: State, u: nat, ts: TaskStep, t: nat)
    requires Shape(c, s) && t < Boot(c) && s.tasks[t].Batch? && TaskEnabled(c, s, u, ts)
    ensures Shape(c, ApplyTask(c, s, u, ts)) && ApplyTask(c, s, u, ts).batches[t] == s.batches[t]
  {
  }

  lemma {:induction false} NoTickNoSecondBatch(c: Config, states: seq<State>, steps: seq<Step>, t: nat, m: nat, k: nat)
    requires Runs(c, states, steps) && m <= k < |states| && Shape(c, states[m]) && t < Boot(c)
    requires forall j :: m <= j < k ==> steps[j] != OfEnv(Tick(t))
    ensures Shape(c, states[k])
    ensures Owed(states[k], t) <= Owed(states[m], t)
    decreases k
  {
    if k > m {
      NoTickNoSecondBatch(c, states, steps, t, m, k - 1);
      assert Follows(c, states, steps, k - 1);
      OnlyTicksOwe(c, states[k - 1], steps[k - 1], t);
    }
  }

  /** Batches started, and the one that a waiting tick will start. */
  function Owed(s: State, t: nat): nat
    requires t < |s.batches| == |s.pending|
  {
    s.batches[t] + if s.pending[t] then 1 else 0
  }

  lemma OnlyTicksOwe(c: Config, s: State, step: Step, t: nat)
    requires Shape(c, s) && t < Boot(c) && Enabled(c, s, step)
    ensures Shape(c, Apply(c, s, step))
    ensures Owed(Apply(c, s, step), t) <= Owed(s, t) + if step == OfEnv(Tick(t)) then 1 else 0
  {
    if step.OfTask? {
      TaskStepOwesNothing(c, s, step.t, step.ts, t);
    } else {
      OnlyTasksStartBatches(c, s, step);
    }
  }

  lemma TaskStepOwesNothing(c: Config, s: State, u: nat, ts: TaskStep, t: nat)
    requires Shape(c, s) && t < Boot(c) && TaskEnabled(c, s, u, ts)
    ensures Shape(c, ApplyTask(c, s, u, ts))
    ensures Owed(ApplyTask(c, s, u, ts), t) <= Owed(s, t)
  {
  }
}

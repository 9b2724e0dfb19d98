/** What the scheduler does while it is not stopped: every batch runs every rule of its group, every
    worker runs its rule once, no tick is lost and nothing gets stuck. */
module SchedulerProgress {
  import opened Sums
  import opened Scheduler
  import opened SchedulerSafety

  // ----- every batch runs all its rules -----

  /** The workers that were ever started for position `p` of task `t`. */
  function StartedFor(ws: seq<Worker>, t: nat, p: nat): set<nat> {
    set w | 0 <= w < |ws| && ws[w].task == t && ws[w].pos == p
  }

  function Started(ws: seq<Worker>, t: nat, p: nat): (r: nat) {
    |StartedFor(ws, t, p)|
  }

  lemma StartedNext(ws: seq<Worker>, x: Worker, t: nat, p: nat)
    ensures Started(ws + [x], t, p) == Started(ws, t, p) + if x.task == t && x.pos == p then 1 else 0
  {
    var before := StartedFor(ws, t, p);
    assert StartedFor(ws + [x], t, p) == if x.task == t && x.pos == p then before + {|ws|} else before;
  }

  lemma StartedStays(ws: seq<Worker>, ws': seq<Worker>, t: nat, p: nat)
    requires |ws'| == |ws| && forall w :: 0 <= w < |ws| ==> ws'[w].task == ws[w].task && ws'[w].pos == ws[w].pos
    ensures Started(ws', t, p) == Started(ws, t, p)
  {
    assert StartedFor(ws', t, p) == StartedFor(ws, t, p);
  }

  /** How many batches a task has begun. */
  function Begun(c: Config, s: State, t: nat): (r: nat)
    requires |s.tasks| == Boot(c) + 1 && |s.batches| == Boot(c) && t <= Boot(c)
  {
    if t < Boot(c) then s.batches[t] else if s.tasks[t] == NotStarted then 0 else 1
  }

  /** In the current batch the position is still to come. */
  ghost predicate ToCome(c: Config, s: State, t: nat, p: nat)
    requires Shape(c, s) && t <= Boot(c)
  {
    s.tasks[t].Batch? && p >= Progress(c, t, s.tasks[t].pc)
  }

  ghost predicate FairAt(c: Config, s: State, t: nat, p: nat)
    requires Shape(c, s) && t <= Boot(c)
  {
    Started(s.workers, t, p) + (if ToCome(c, s, t, p) then 1 else 0) == Begun(c, s, t)
  }

  ghost predicate InBatch(c: Config, t: int, p: int) { 0 <= t <= Boot(c) && 0 <= p < BatchSize(c, t) }

  ghost predicate Fair(c: Config, s: State) {
    Shape(c, s) && forall t, p :: InBatch(c, t, p) ==> FairAt(c, s, t, p)
  }

  lemma InitIsFair(c: Config)
    ensures Fair(c, Init(c))
  {
  }

  lemma TaskKeepsFairAt(c: Config, s: State, u: nat, ts: TaskStep, t: nat, p: nat)
    requires Shape(c, s) && !s.stopped && TaskEnabled(c, s, u, ts) && TaskOk(c, s, u)
    requires InBatch(c, t, p) && FairAt(c, s, t, p)
    ensures Shape(c, ApplyTask(c, s, u, ts)) && FairAt(c, ApplyTask(c, s, u, ts), t, p)
  {
    if ts == Start {
      StartKeepsFairAt(c, s, u, t, p);
    } else {
      OthersKeepFairAt(c, s, u, ts, t, p);
    }
  }

  lemma StartKeepsFairAt(c: Config, s: State, u: nat, t: nat, p: nat)
    requires Shape(c, s) && TaskEnabled(c, s, u, Start) && TaskOk(c, s, u)
    requires InBatch(c, t, p) && FairAt(c, s, t, p)
    ensures Shape(c, ApplyTask(c, s, u, Start)) && FairAt(c, ApplyTask(c, s, u, Start), t, p)
  {
    StartedNext(s.workers, Worker(u, s.tasks[u].pc.k, Launched, Open), t, p);
  }

  lemma OthersKeepFairAt(c: Config, s: State, u: nat, ts: TaskStep, t: nat, p: nat)
    requires Shape(c, s) && !s.stopped && TaskEnabled(c, s, u, ts) && TaskOk(c, s, u) && ts != Start
    requires InBatch(c, t, p) && FairAt(c, s, t, p)
    ensures Shape(c, ApplyTask(c, s, u, ts)) && FairAt(c, ApplyTask(c, s, u, ts), t, p)
  {
    TaskChangesItself(c, s, u, ts);
  }

  lemma WorkerKeepsFair(c: Config, s: State, w: nat, ws: WorkerStep)
    requires Fair(c, s) && WorkerEnabled(s, w, ws)
    ensures Fair(c, ApplyWorker(s, w, ws))
  {
    var s' := ApplyWorker(s, w, ws);
    WorkerKeepsPlaces(s, w, ws);
    WorkerStartsNoBatch(s, w, ws);
    forall t, p | InBatch(c, t, p) ensures FairAt(c, s', t, p) {
      assert FairAt(c, s, t, p);
      StartedStays(s.workers, s'.workers, t, p);
    }
  }

  lemma MainKeepsFair(c: Config, s: State, ms: MainStep)
    requires Fair(c, s) && MainOk(c, s) && MainEnabled(c, s, ms)
    ensures Fair(c, ApplyMain(c, s, ms))
  {
    var s' := ApplyMain(c, s, ms);
    MainKeepsThem(c, s, ms);
    MainStartsNoBatch(c, s, ms);
    forall t, p | InBatch(c, t, p) ensures FairAt(c, s', t, p) {
      assert FairAt(c, s, t, p);
    }
  }

  lemma EnvKeepsFair(c: Config, s: State, es: EnvStep)
    requires Fair(c, s) && EnvEnabled(s, es)
    ensures Fair(c, ApplyEnv(s, es))
  {
    var s' := ApplyEnv(s, es);
    EnvKeepsThem(s, es);
    forall t, p | InBatch(c, t, p) ensures FairAt(c, s', t, p) {
      assert FairAt(c, s, t, p);
    }
  }

  lemma StepKeepsFair(c: Config, s: State, step: Step)
    requires TasksOk(c, s) && MainOk(c, s) && Fair(c, s) && !s.stopped && Enabled(c, s, step)
    ensures Fair(c, Apply(c, s, step))
  {
    match step
    case OfTask(u, ts) =>
      assert TaskOk(c, s, u);
      TaskChangesItself(c, s, u, ts);
      TaskKeepsShape(c, s, u, ts);
      forall t, p | InBatch(c, t, p) ensures FairAt(c, Apply(c, s, step), t, p) {
        assert FairAt(c, s, t, p);
        TaskKeepsFairAt(c, s, u, ts, t, p);
      }
    case OfWorker(w, ws) => WorkerKeepsFair(c, s, w, ws);
    case OfMain(ms) => MainKeepsFair(c, s, ms);
    case OfEnv(es) => EnvKeepsFair(c, s, es);
  }

  lemma TaskKeepsShape(c: Config, s: State, u: nat, ts: TaskStep)
    requires Shape(c, s) && TaskEnabled(c, s, u, ts)
    ensures Shape(c, ApplyTask(c, s, u, ts))
  {
  }

  lemma {:induction false} ExecutionIsFair(c: Config, states: seq<State>, steps: seq<Step>, k: nat)
    requires Execution(c, states, steps) && k < |states|
    ensures !states[k].stopped ==> Fair(c, states[k])
  {
    if k == 0 {
      InitIsFair(c);
    } else if !states[k].stopped {
      TasksStayOk(c, states, steps, k - 1);
      assert Follows(c, states, steps, k - 1);
      if states[k - 1].stopped {
        StopStays(c, states[k - 1], steps[k - 1]);
      } else {
        ExecutionIsFair(c, states, steps, k - 1);
        StepKeepsFair(c, states[k - 1], steps[k - 1]);
      }
    }
  }

  lemma TasksStayOk(c: Config, states: seq<State>, steps: seq<Step>, k: nat)
    requires Execution(c, states, steps) && k < |states|
    ensures TasksOk(c, states[k]) && MainOk(c, states[k])
  {
    ExecutionInv(c, states, steps, k);
  }

  lemma StopStays(c: Config, s: State, step: Step)
    requires s.stopped && Enabled(c, s, step)
    ensures Apply(c, s, step).stopped
  {
  }

  /** While the plugin is not stopped, a task that is outside a batch, or has started all of its batch, has
      started every one of its rules exactly as often as it has begun a batch: a group once for every tick
      that it took, the boot task once if there are groups at all. */
  lemma {:induction false} EveryRuleGetsItsRun(c: Config, states: seq<State>, steps: seq<Step>, k: nat, t: nat, p: nat)
    requires Execution(c, states, steps) && k < |states| && !states[k].stopped && InBatch(c, t, p)
    ensures var s := states[k];
      && |s.tasks| == Boot(c) + 1 && |s.batches| == Boot(c)
      && (!s.tasks[t].Batch? || s.tasks[t] == Batch(WaitAll) ==>
            Started(s.workers, t, p) == if t < Boot(c) then s.batches[t] else if c.groups == [] then 0 else 1)
  {
    ExecutionInv(c, states, steps, k);
    ExecutionIsFair(c, states, steps, k);
    assert FairAt(c, states[k], t, p) && TaskOk(c, states[k], t);
  }

  /** And outside a batch every one of those runs has its result in the channel or received. */
  lemma {:induction false} EveryRunIsReported(c: Config, states: seq<State>, steps: seq<Step>, k: nat, w: nat)
    requires Execution(c, states, steps) && k < |states| && !states[k].stopped && w < |states[k].workers|
    ensures var s := states[k]; var x := s.workers[w];
      && x.task < |s.tasks|
      && (!s.tasks[x.task].Batch? ==> w in s.received + s.results)
  {
    ExecutionInv(c, states, steps, k);
    assert WorkerOk(c, states[k], w);
  }

  // ----- every worker runs its rule once -----

  /** How often a step was taken. */
  function Taken(steps: seq<Step>, step: Step): (r: nat) {
    if steps == [] then 0 else Taken(steps[..|steps| - 1], step) + if steps[|steps| - 1] == step then 1 else 0
  }

  predicate HasBegun(x: Worker) { x.pc == Running || RunFinished(x) }

  lemma StepRuns(c: Config, s: State, step: Step, w: nat)
    requires TasksOk(c, s) && WorkersOk(c, s) && Enabled(c, s, step)
    ensures var s' := Apply(c, s, step);
      && (step == OfWorker(w, Begin) || step == OfWorker(w, Finish) ==> w < |s.workers|)
      && (w < |s'.workers| && w < |s.workers| ==>
            && ((if HasBegun(s'.workers[w]) then 1 else 0) == (if HasBegun(s.workers[w]) then 1 else 0) + (if step == OfWorker(w, Begin) then 1 else 0))
            && ((if RunFinished(s'.workers[w]) then 1 else 0) == (if RunFinished(s.workers[w]) then 1 else 0) + (if step == OfWorker(w, Finish) then 1 else 0)))
      && (w < |s'.workers| && w >= |s.workers| ==> !HasBegun(s'.workers[w]))
      && |s'.workers| >= |s.workers|
  {
    match step
    case OfTask(t, ts) => TaskKeepsOrStarts(c, s, t, ts);
    case OfWorker(v, ws) =>
      assert WorkerOk(c, s, v);
      WorkerStepRuns(s, v, ws, w);
    case OfMain(ms) => MainKeepsThem(c, s, ms);
    case OfEnv(es) => EnvKeepsThem(s, es);
  }

  lemma WorkerStepRuns(s: State, v: nat, ws: WorkerStep, w: nat)
    requires WorkerEnabled(s, v, ws)
    requires var x := s.workers[v]; x.outcome == Open <==> x.pc == Launched || x.pc == Passed || x.pc == Running || x.pc == Holding
    ensures var s' := ApplyWorker(s, v, ws);
      && |s'.workers| == |s.workers|
      && (w < |s.workers| ==>
            && ((if HasBegun(s'.workers[w]) then 1 else 0) == (if HasBegun(s.workers[w]) then 1 else 0) + (if v == w && ws == Begin then 1 else 0))
            && ((if RunFinished(s'.workers[w]) then 1 else 0) == (if RunFinished(s.workers[w]) then 1 else 0) + (if v == w && ws == Finish then 1 else 0)))
  {
  }

  /** A worker has begun its rule at most once, and finished it at most once; and it has a result, in hand,
      sent or dropped, exactly when it has finished it. */
  lemma {:induction false} WorkersRunOnce(c: Config, states: seq<State>, steps: seq<Step>, k: nat, w: nat)
    requires Execution(c, states, steps) && k < |states|
    ensures var ws := states[k].workers;
      && Taken(steps[..k], OfWorker(w, Begin)) == (if w < |ws| && HasBegun(ws[w]) then 1 else 0)
      && Taken(steps[..k], OfWorker(w, Finish)) == (if w < |ws| && RunFinished(ws[w]) then 1 else 0)
  {
    if k > 0 {
      WorkersRunOnce(c, states, steps, k - 1, w);
      ExecutionInv(c, states, steps, k - 1);
      assert Follows(c, states, steps, k - 1);
      StepRuns(c, states[k - 1], steps[k - 1], w);
      assert steps[..k][..k - 1] == steps[..k - 1];
    }
  }

  // ----- results arrive in order -----

  /** Results are received in the order in which they were sent: what was received, followed by what is in the
      channel, only ever grows at its end. */
  lemma {:induction false} ResultsArriveInOrder(c: Config, states: seq<State>, steps: seq<Step>, m: nat, k: nat)
    requires Runs(c, states, steps) && m <= k < |states|
    ensures states[m].received + states[m].results <= states[k].received + states[k].results
    ensures states[m].received <= states[k].received
    decreases k
  {
    if m < k {
      ResultsArriveInOrder(c, states, steps, m, k - 1);
      assert Follows(c, states, steps, k - 1);
      StepKeepsOrder(c, states[k - 1], steps[k - 1]);
    }
  }

  lemma StepKeepsOrder(c: Config, s: State, step: Step)
    requires Enabled(c, s, step)
    ensures var s' := Apply(c, s, step); s.received + s.results <= s'.received + s'.results && s.received <= s'.received
  {
    match step
    case OfTask(t, ts) => TaskKeepsOrder(c, s, t, ts);
    case OfWorker(w, ws) => WorkerKeepsOrder(s, w, ws);
    case OfMain(ms) => MainKeepsOrder(c, s, ms);
    case OfEnv(es) => EnvKeepsOrder(s, es);
  }

  lemma TaskKeepsOrder(c: Config, s: State, t: nat, ts: TaskStep)
    requires TaskEnabled(c, s, t, ts)
    ensures var s' := ApplyTask(c, s, t, ts); s'.received == s.received && s'.results == s.results
  {
  }

  lemma WorkerKeepsOrder(s: State, w: nat, ws: WorkerStep)
    requires WorkerEnabled(s, w, ws)
    ensures var s' := ApplyWorker(s, w, ws); s'.received == s.received && s.received + s.results <= s'.received + s'.results
  {
  }

  lemma MainKeepsOrder(c: Config, s: State, ms: MainStep)
    requires MainEnabled(c, s, ms)
    ensures var s' := ApplyMain(c, s, ms); s'.received == s.received && s'.results == s.results
  {
  }

  lemma EnvKeepsOrder(s: State, es: EnvStep)
    requires EnvEnabled(s, es)
    ensures var s' := ApplyEnv(s, es); s.received <= s'.received && s.received + s.results == s'.received + s'.results
  {
  }

  /** The channel never holds more than a thousand results, and nobody stops the plugin before the monitor
      was told to stop. */
  lemma {:induction false} ResultsFit(c: Config, states: seq<State>, steps: seq<Step>, k: nat)
    requires Execution(c, states, steps) && k < |states|
    ensures |states[k].results| <= 1000
    ensures states[k].stopped ==> states[k].monitorTold
  {
    if k > 0 {
      ResultsFit(c, states, steps, k - 1);
      assert Follows(c, states, steps, k - 1);
      StepKeepsRoom(c, states[k - 1], steps[k - 1]);
    }
  }

  lemma StepKeepsRoom(c: Config, s: State, step: Step)
    requires Enabled(c, s, step)
    ensures var s' := Apply(c, s, step);
      && (|s.results| <= 1000 ==> |s'.results| <= 1000)
      && ((s.stopped ==> s.monitorTold) ==> s'.stopped ==> s'.monitorTold)
  {
    match step
    case OfTask(t, ts) => TaskKeepsRoom(c, s, t, ts);
    case OfWorker(w, ws) => WorkerKeepsRoom(s, w, ws);
    case OfMain(ms) =>
    case OfEnv(es) =>
  }

  lemma TaskKeepsRoom(c: Config, s: State, t: nat, ts: TaskStep)
    requires TaskEnabled(c, s, t, ts)
    ensures var s' := ApplyTask(c, s, t, ts); s'.results == s.results && s'.stopped == s.stopped && s'.monitorTold == s.monitorTold
  {
  }

  lemma WorkerKeepsRoom(s: State, w: nat, ws: WorkerStep)
    requires WorkerEnabled(s, w, ws)
    ensures var s' := ApplyWorker(s, w, ws);
      && (|s.results| <= 1000 ==> |s'.results| <= 1000)
      && s'.stopped == s.stopped && s'.monitorTold == s.monitorTold
  {
  }

  // ----- no tick is lost -----

  /** Once a group's ticker has fired, the tick waits until the group has begun a batch for it. */
  lemma {:induction false} TickIsNotLost(c: Config, states: seq<State>, steps: seq<Step>, t: nat, m: nat, k: nat)
    requires Runs(c, states, steps) && m < k < |states|
    requires Shape(c, states[m]) && t < Boot(c) && steps[m] == OfEnv(Tick(t))
    ensures Shape(c, states[k])
    ensures states[k].pending[t] || states[k].batches[t] > states[m].batches[t]
    ensures states[k].batches[t] >= states[m].batches[t]
    decreases k
  {
    assert Follows(c, states, steps, k - 1);
    if k == m + 1 {
      OnlyTasksStartBatches(c, states[m], steps[m]);
    } else {
      TickIsNotLost(c, states, steps, t, m, k - 1);
      if steps[k - 1].OfTask? {
        TaskKeepsTick(c, states[k - 1], steps[k - 1].t, steps[k - 1].ts, t);
      } else {
        OnlyTasksStartBatches(c, states[k - 1], steps[k - 1]);
      }
    }
  }

  lemma TaskKeepsTick(c: Config, s: State, u: nat, ts: TaskStep, t: nat)
    requires Shape(c, s) && t < Boot(c) && TaskEnabled(c, s, u, ts)
    ensures var s' := ApplyTask(c, s, u, ts);
      && Shape(c, s') && s'.batches[t] >= s.batches[t]
      && (s.pending[t] ==> s'.pending[t] || s'.batches[t] > s.batches[t])
  {
  }

  // ----- nothing gets stuck -----

  /** A worker that is not gone can go on, or the monitor loop can make room for its result. */
  lemma LiveWorkerGoesOn(c: Config, s: State, w: nat) returns (step: Step)
    requires Inv(c, s) && !s.stopped && w < |s.workers| && s.workers[w].pc != Gone
    ensures Enabled(c, s, step) && (step.OfEnv? ==> step == OfEnv(Receive))
  {
    SumAtLeast(s.workers, w, WorkerTokens);
    match s.workers[w].pc
    case Launched => step := OfWorker(w, CheckRun);
    case Passed => step := OfWorker(w, Begin);
    case Running => step := OfWorker(w, Finish);
    case Holding => step := if |s.results| < RESULT_CAPACITY then OfWorker(w, Send) else OfEnv(Receive);
    case Releasing => step := OfWorker(w, Release);
    case Leaving => step := OfWorker(w, Leave);
  }

  /** A worker is alive, a batch is under way, a group has a tick waiting or groups are still to be started. */
  ghost predicate Busy(c: Config, s: State)
    requires Shape(c, s)
  {
    || (exists w :: 0 <= w < |s.workers| && s.workers[w].pc != Gone)
    || (exists t :: 0 <= t < |s.tasks| && s.tasks[t].Batch?)
    || (exists t :: 0 <= t < Boot(c) && s.tasks[t] == Select && s.pending[t])
    || s.main.Spawning?
  }

  /** While the plugin is busy, not stopped and may run at least one rule at a time, it can take a step, or the
      monitor loop can make room by taking a result. */
  lemma {:induction false} NeverStuck(c: Config, states: seq<State>, steps: seq<Step>, k: nat)
    requires Execution(c, states, steps) && k < |states| && !states[k].stopped && c.concurrency >= 1
    ensures Shape(c, states[k])
    ensures Busy(c, states[k]) ==> exists step :: Enabled(c, states[k], step) && (step.OfEnv? ==> step == OfEnv(Receive))
  {
    ExecutionInv(c, states, steps, k);
    if Busy(c, states[k]) {
      var step := BusyGoesOn(c, states[k]);
    }
  }

  lemma {:induction false} BusyGoesOn(c: Config, s: State) returns (step: Step)
    requires Inv(c, s) && !s.stopped && c.concurrency >= 1 && Busy(c, s)
    ensures Enabled(c, s, step) && (step.OfEnv? ==> step == OfEnv(Receive))
  {
    if w :| 0 <= w < |s.workers| && s.workers[w].pc != Gone {
      step := LiveWorkerGoesOn(c, s, w);
    } else if t :| 0 <= t < |s.tasks| && s.tasks[t].Batch? && TaskTokens(s.tasks[t]) == 1 {
      assert TaskOk(c, s, t);
      step := OfTask(t, if s.tasks[t].pc.Check? then CheckStop else Start);
    } else if t :| 0 <= t < |s.tasks| && s.tasks[t].Batch? {
      assert TaskOk(c, s, t);
      SumOfZeros(s.tasks, TaskTokens);
      SumOfZeros(s.workers, WorkerTokens);
      step := OfTask(t, if s.tasks[t].pc.Acquire? then TakeToken else BatchEnd);
    } else if t :| 0 <= t < Boot(c) && s.tasks[t] == Select && s.pending[t] {
      step := OfTask(t, TakeTick);
    } else {
      step := OfMain(if s.main.next < Boot(c) then Spawn else AllSpawned);
    }
  }
}

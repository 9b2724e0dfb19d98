/** Once the plugin is told to stop it cannot get stuck and cannot go on for ever. */
module SchedulerLiveness {
  import opened Sums
  import opened Scheduler
  import opened SchedulerSafety

  // ----- what is left to do after the stop -----

  function WorkerRank(x: Worker): nat {
    match x.pc
    case Launched => 6
    case Passed => 5
    case Running => 4
    case Holding => 3
    case Releasing => 2
    case Leaving => 1
    case Gone => 0
  }

  function TaskRank(pc: TaskPc): nat {
    match pc
    case NotStarted => 6
    case Select => 5
    case Exited => 0
    case Batch(b) =>
      match b
      case Launch(_) => 13
      case WaitAll => 6
      case Acquire(_) => 4
      case Check(_) => 3
      case Surrender => 2
      case WaitAbort => 1
  }

  function MainRank(c: Config, pc: MainPc): nat {
    match pc
    case Booting => Boot(c) + 6
    case Spawning(n) => if n <= Boot(c) then Boot(c) - n + 4 else 4
    case WaitGroups => 3
    case WaitEmpty => 3
    case Closing => 2
    case Signalling => 1
    case Finished => 0
  }

  function Measure(c: Config, s: State): nat {
    MainRank(c, s.main) + Sum(s.tasks, TaskRank) + Sum(s.workers, WorkerRank)
  }

  // ----- every plugin step makes it smaller -----

  lemma TaskRankDrops(c: Config, s: State, t: nat, ts: TaskStep)
    requires s.stopped && TaskEnabled(c, s, t, ts) && MainOk(c, s)
    ensures var s' := ApplyTask(c, s, t, ts);
      && t < |s'.tasks|
      && MainRank(c, s'.main) + TaskRank(s'.tasks[t]) + (if ts == Start then 6 else 0) < MainRank(c, s.main) + TaskRank(s.tasks[t])
  {
  }

  lemma StartAddsWorker(c: Config, s: State, t: nat)
    requires TaskEnabled(c, s, t, Start)
    ensures var s' := ApplyTask(c, s, t, Start);
      && |s'.workers| == |s.workers| + 1 && s'.workers == s.workers + [s'.workers[|s.workers|]]
      && WorkerRank(s'.workers[|s.workers|]) == 6
  {
  }

  lemma TaskStepDecreases(c: Config, s: State, t: nat, ts: TaskStep)
    requires s.stopped && TaskEnabled(c, s, t, ts) && MainOk(c, s)
    ensures Measure(c, ApplyTask(c, s, t, ts)) < Measure(c, s)
  {
    var s' := ApplyTask(c, s, t, ts);
    TaskRankDrops(c, s, t, ts);
    TaskChangesItself(c, s, t, ts);
    SumUpdate(s.tasks, t, s'.tasks[t], TaskRank);
    if ts == Start {
      StartAddsWorker(c, s, t);
      SumAppend(s.workers, s'.workers[|s.workers|], WorkerRank);
    }
  }

  lemma WorkerStepDecreases(c: Config, s: State, w: nat, ws: WorkerStep)
    requires WorkerEnabled(s, w, ws)
    ensures Measure(c, ApplyWorker(s, w, ws)) < Measure(c, s)
  {
    var s' := ApplyWorker(s, w, ws);
    SumUpdate(s.workers, w, s'.workers[w], WorkerRank);
    assert s'.workers == s.workers[w := s'.workers[w]];
  }

  lemma MainStepDecreases(c: Config, s: State, ms: MainStep)
    requires MainEnabled(c, s, ms) && Shape(c, s) && MainOk(c, s)
    ensures Measure(c, ApplyMain(c, s, ms)) < Measure(c, s)
  {
    if ms == Spawn {
      SumUpdate(s.tasks, s.main.next, Select, TaskRank);
    }
  }

  /** After the stop every step of the plugin makes the measure smaller, and nothing that
      happens around it makes the measure larger. */
  lemma StepDecreases(c: Config, s: State, step: Step)
    requires Inv(c, s) && s.stopped && Enabled(c, s, step)
    ensures if step.OfEnv? then Measure(c, Apply(c, s, step)) == Measure(c, s)
            else Measure(c, Apply(c, s, step)) < Measure(c, s)
  {
    match step
    case OfTask(t, ts) => TaskStepDecreases(c, s, t, ts);
    case OfWorker(w, ws) => WorkerStepDecreases(c, s, w, ws);
    case OfMain(ms) => MainStepDecreases(c, s, ms);
    case OfEnv(es) =>
  }

  // ----- some plugin step is possible until the end -----

  function NextOfWorker(pc: WorkerPc): WorkerStep
    requires pc != Gone
  {
    match pc
    case Launched => CheckRun
    case Passed => Begin
    case Running => Finish
    case Holding => Drop
    case Releasing => Release
    case Leaving => Leave
  }

  lemma LiveWorkerCanStep(c: Config, s: State, w: nat)
    requires Inv(c, s) && s.stopped && w < |s.workers| && s.workers[w].pc != Gone
    ensures WorkerEnabled(s, w, NextOfWorker(s.workers[w].pc))
  {
    SumAtLeast(s.workers, w, WorkerTokens);
  }

  function NextOfTask(pc: TaskPc): TaskStep
    requires !Idle(pc)
  {
    match pc
    case Select => SelectStop
    case Batch(b) =>
      match b
      case Acquire(_) => AcquireStop
      case Check(_) => CheckStop
      case Surrender => Unclaim
      case Launch(_) => Start
      case WaitAll => BatchEnd
      case WaitAbort => AbortEnd
  }

  lemma BusyTaskCanStep(c: Config, s: State, t: nat)
    requires Inv(c, s) && s.stopped && t < |s.tasks| && !Idle(s.tasks[t])
    requires forall w :: 0 <= w < |s.workers| ==> s.workers[w].pc == Gone
    ensures TaskEnabled(c, s, t, NextOfTask(s.tasks[t]))
  {
    SumAtLeast(s.tasks, t, TaskTokens);
  }

  /** Nothing the plugin waits for can be missing: until it has signalled that it is done,
      one of its goroutines can take a step. */
  lemma {:induction false} StoppedPluginCanStep(c: Config, s: State) returns (step: Step)
    requires Inv(c, s) && s.stopped && !s.done
    ensures !step.OfEnv? && Enabled(c, s, step)
  {
    if w :| 0 <= w < |s.workers| && s.workers[w].pc != Gone {
      LiveWorkerCanStep(c, s, w);
      return OfWorker(w, NextOfWorker(s.workers[w].pc));
    }
    if t :| 0 <= t < |s.tasks| && !Idle(s.tasks[t]) {
      BusyTaskCanStep(c, s, t);
      return OfTask(t, NextOfTask(s.tasks[t]));
    }
    match s.main
    case Spawning(n) => return if n < Boot(c) then OfMain(Spawn) else OfMain(AllSpawned);
    case WaitGroups => return OfMain(GroupsDone);
    case WaitEmpty => return OfMain(EmptyStop);
    case Closing => return OfMain(CloseResults);
    case Signalling => return OfMain(SignalDone);
    case _ =>
  }

  // ----- over whole executions -----

  function PluginSteps(steps: seq<Step>): (r: nat) {
    if steps == [] then 0
    else PluginSteps(steps[..|steps| - 1]) + if steps[|steps| - 1].OfEnv? then 0 else 1
  }

  lemma {:induction false} MeasurePaysForStep(c: Config, states: seq<State>, steps: seq<Step>, k: nat)
    requires Execution(c, states, steps) && k < |steps| && states[k].stopped
    ensures states[k + 1].stopped
    ensures (if steps[k].OfEnv? then 0 else 1) + Measure(c, states[k + 1]) <= Measure(c, states[k])
  {
    ExecutionInv(c, states, steps, k);
    assert Follows(c, states, steps, k);
    StepDecreases(c, states[k], steps[k]);
  }

  lemma {:induction false} MeasurePaysForSteps(c: Config, states: seq<State>, steps: seq<Step>, m: nat, k: nat)
    requires Execution(c, states, steps) && m <= k < |states| && states[m].stopped
    ensures states[k].stopped
    ensures PluginSteps(steps[m..k]) + Measure(c, states[k]) <= Measure(c, states[m])
    decreases k
  {
    if k > m {
      MeasurePaysForSteps(c, states, steps, m, k - 1);
      MeasurePaysForStep(c, states, steps, k - 1);
      PluginStepsSnoc(steps, m, k);
    }
  }

  lemma {:induction false} PluginStepsSnoc(steps: seq<Step>, m: nat, k: nat)
    requires m < k <= |steps|
    ensures PluginSteps(steps[m..k]) == PluginSteps(steps[m..k - 1]) + if steps[k - 1].OfEnv? then 0 else 1
  {
    assert steps[m..k][..k - 1 - m] == steps[m..k - 1];
  }

  /** `Stop` never gets stuck: from the stop on the plugin takes at most `Measure` further steps,
      whatever ticks and receives come in between; until it is done it can always take one; and
      when it is done, the monitor loop that waits in `Stop` can go on. */
  lemma {:induction false} StopCompletes(c: Config, states: seq<State>, steps: seq<Step>, m: nat, k: nat)
    requires Execution(c, states, steps) && m <= k < |states| && states[m].stopped
    ensures PluginSteps(steps[m..k]) <= Measure(c, states[m])
    ensures !states[k].done ==> exists step: Step :: !step.OfEnv? && Enabled(c, states[k], step)
    ensures states[k].done ==> EnvEnabled(states[k], StopReturns) || states[k].monitor == Stopped
  {
    MeasurePaysForSteps(c, states, steps, m, k);
    ExecutionInv(c, states, steps, k);
    if !states[k].done {
      var step := StoppedPluginCanStep(c, states[k]);
    }
  }
}

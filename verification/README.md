# A verified model of node-problem-detector

node-problem-detector runs on every node of a Kubernetes cluster, watches logs and plugins for
problems, and reports them as node conditions, events and metrics. This project models the parts of it
that carry state across many events, and proves what they promise over every history, every
interleaving and every failure.

| file | what it models |
|---|---|
| `Regexp.dfy` | parse trees of Go regular expressions, what a match is, and the static verdict "can match only in the last line" |
| `LogBuffer.dfy` | the ring buffer of log lines, its cached text, pattern compilation, the slow matcher and the last-line shortcut |
| `LogCounter.dfy` | counting firings of a pattern, minus those of a revert pattern |
| `LogMonitor.dfy` | the log monitor: which rules a line fires, and what becomes of conditions, events and metrics |
| `IntervalGroups.dfy`, `Scheduler.dfy`, `SchedulerSafety.dfy`, `SchedulerProgress.dfy`, `SchedulerLiveness.dfy` | the custom plugin scheduler as a machine of atomic steps of all its goroutines, its safety in every execution, what it gets done while it runs, and why a stop always completes |
| `CustomPluginMonitor.dfy`, `Streaks.dfy` | how plugin results change conditions |
| `ProblemMetrics.dfy`, `MonitorMetrics.dfy`, `Int64.dfy` | the label-keyed metric store, the problem gauges and counters, and how they follow both monitors |
| `ConditionManager.dfy` | the sync protocol between updaters, the ticking loop and a fallible API server |
| `KmsgWatcher.dfy` | the kernel log watcher and its parser restarts, as the history of what it does to parsers |
| `DiskCollector.dfy` | disk counter deltas in 64-bit arithmetic |
| `Conditions.dfy`, `Options.dfy`, `Sums.dfy` | shared entities and sums |

How it is built:

- What the program updates in place is a class. Its methods are proved against functions on values, and
  the properties of whole runs are lemmas about those functions.
- A ghost parameter such as `ghost w: World` or `ghost b: Board` is the specification state that the object
  shows before the call; the contract gives the state that it shows afterwards.
- Concurrency is a step relation: `Runs` and `Execution` say that a list of states follows from a list of
  steps, and a theorem about every index of every such list is a theorem about every reachable state.
- Clock readings, server replies, failing calls, the stop signal and the order in which a Go map is walked
  are arbitrary.

Where the code and what one might expect of it differ, the code is kept and the exact condition is proved:

- The last-line shortcut is right for a tree that the classifier accepts exactly when every match reaches the
  end of the text (`ShortcutNeedsExactlyTheEnd`). For a top-level alternation with the anchor appended, that
  fails exactly when an earlier branch can match before the end (`AlternationNeedsEveryBranchAnchored`), and it
  does fail for every alternation of two words (`WordAlternationNeedsTheComparison`).
- The buffer's text has one newline less when nothing was pushed yet (`TextShape`).
- Draining forgets an update exactly when it is the zero condition of the empty type and none is held for that
  type (`DrainForgetsOnlyZero`), which does happen (`ZeroIsForgotten`).
- The custom plugin monitor's gauges are right after every sequence of results of its rules exactly when no
  permanent rule is about a type that two default conditions share (`MetricsNeedUnsharedTargets`). The log
  monitor's need no such assumption.
- The server bound takes a positive heartbeat period (`ServerIsNotFlooded`); without one every tick syncs
  (`NoHeartbeatPeriodSyncsEveryTick`).
- The disk deltas add up to the last raw value modulo 2^64, and exactly when the far jumps cancel out
  (`DifferencesAddUp`).

## Model

| member | source | states |
|---|---|---|
| `Regexp.IteratesIsSomePower` | pkg/systemlogmonitor/log_buffer.go:139-145 | iterations that consume something give exactly the spans that some number of repetitions gives |
| `Regexp.RepetitionsCount` | pkg/systemlogmonitor/log_buffer.go:139-145 | a star matches any number of its operand in a row, a plus at least one, a quest at most one, a counted repeat a number between its bounds |
| `Regexp.PowersAdd` | pkg/systemlogmonitor/log_buffer.go:139-145 | m + n matches in a row are m and then n |
| `Regexp.ConcatComposes` | pkg/systemlogmonitor/log_buffer.go:139-145 | a concatenation matches where its two parts match one after the other |
| `Regexp.AlternateIsUnion` | pkg/systemlogmonitor/log_buffer.go:139-145 | an alternation matches where one of its two parts does |
| `Regexp.LiteralIsItsCharacters` | pkg/systemlogmonitor/log_buffer.go:108-111 | a literal matches exactly its characters, one after the other |
| `Regexp.AnyCharIsAClass` | pkg/systemlogmonitor/log_buffer.go:100-102 | any character is the class of all characters, any but a newline the class of all others |
| `Regexp.AnchorsSeeAround` | pkg/systemlogmonitor/log_buffer.go:103-105 | text and line anchors hold exactly by what stands before and after them |
| `Regexp.BoundariesSeeWords` | pkg/systemlogmonitor/log_buffer.go:97-124 | a word boundary is exactly where one neighbour is in the class of word characters and the other is not |
| `Regexp.ClassifierIsExact` | pkg/systemlogmonitor/log_buffer.go:97-124 | the classifier accepts a tree if and only if nowhere in it occurs a leaf that accepts a newline or looks for a start or a line end |
| `Regexp.SearchIsLeftmost` | pkg/systemlogmonitor/log_buffer.go:139-145 | the search finds a match start and no earlier one exists; it finds none only if none exists |
| `Regexp.MatchHasNoNewline` | pkg/systemlogmonitor/log_buffer.go:97-124 | no match of an accepted tree contains a newline, through every star and repeat |
| `Regexp.MatchIgnoresEarlierLines` | pkg/systemlogmonitor/log_buffer.go:97-124 | for an accepted tree, a span matches in a text exactly when it matches after whole lines are put in front, word boundaries included |
| `Regexp.BoundaryIgnoresEarlierLines` | pkg/systemlogmonitor/log_buffer.go:97-124 | word boundaries are the same with and without whole lines in front |
| `Regexp.MatchIgnoresLaterText` | pkg/systemlogmonitor/log_buffer.go:77-93 | a span that stops before the end matches for any tree exactly as it does when text is appended, which is why the anchor matters |
| `LogBuffers.CompiledPatternMeans` | pkg/systemlogmonitor/log_buffer.go:72-95 | a pattern exactly when the expression parses with and without the anchor; it matches every span exactly as the expression with the anchor appended does; it is marked exactly when the group makes no difference and the classifier accepts, and then all its matches reach the end |
| `LogBuffers.CompiledPatternFinds` | pkg/systemlogmonitor/log_buffer.go:72-95 | on every history and capacity it finds what the expression with the anchor appended finds |
| `LogBuffers.TextShape` | pkg/systemlogmonitor/log_buffer.go:171-192 | the text is one newline per empty slot and then the newline-join of the held messages, for every history and capacity; with nothing pushed, one newline less |
| `LogBuffers.ReferenceIsShortestCover` | pkg/systemlogmonitor/log_buffer.go:134-157 | the scan returns the shortest non-empty suffix of held lines that, with the separator before it, reaches the leftmost match start; all held lines if none does; nothing without a match |
| `LogBuffers.ShortcutIsReference` | pkg/systemlogmonitor/log_buffer.go:134-169 | on every history, capacity and message, embedded newlines included, the shortcut returns the same lines as the scan of the whole text |
| `LogBuffers.ShortcutNeedsExactlyTheEnd` | pkg/systemlogmonitor/log_buffer.go:77-93 | for an accepted tree the shortcut agrees on all histories and capacities if and only if every match reaches the end |
| `LogBuffers.AlternationNeedsEveryBranchAnchored` | pkg/systemlogmonitor/log_buffer.go:77-93 | for an alternation with the anchor appended, it agrees if and only if every earlier branch reaches the end on its own |
| `LogBuffers.WordAlternationNeedsTheComparison` | pkg/systemlogmonitor/log_buffer_equivalence_test.go:197-216 | an anchored alternation of two words passes the classifier and the shortcut is wrong for it |
| `LogBuffers.LogBuffer.constructor` | pkg/systemlogmonitor/log_buffer.go:62-68 | an empty ring of the given capacity |
| `LogBuffers.RingIndexIsRemainder` | pkg/systemlogmonitor/log_buffer.go:126-132 | the slot that the ring's invariant speaks of is the remainder that the code computes |
| `LogBuffers.LogBuffer.Push` | pkg/systemlogmonitor/log_buffer.go:126-132 | appends to the history; every slot holds the log that is due there, and no stale text stays cached |
| `LogBuffers.LogBuffer.String` | pkg/systemlogmonitor/log_buffer.go:171-182 | cached or not, the text of the history; the cache stays right |
| `LogBuffers.LogBuffer.MatchLastLine` | pkg/systemlogmonitor/log_buffer.go:159-169 | the last line if the pattern matches in it, nothing if not or if nothing was pushed |
| `LogBuffers.LogBuffer.Match` | pkg/systemlogmonitor/log_buffer.go:134-157 | on both paths, exactly what the scan of the whole text returns |
| `LogBuffers.LogBuffer.MatchWhole` | pkg/systemlogmonitor/log_buffer.go:138-157 | the slow path returns what the scan of the whole text returns, for any tree |
| `LogBuffers.LogBuffer.CollectBack` | pkg/systemlogmonitor/log_buffer.go:144-156 | the backward walk over the ring returns the newest lines that span past the match start, in order |
| `LogCounters.AcceptsIsUnique` | pkg/logcounter/log_counter.go:83-109 | the accepted logs are determined by the arrivals and the start |
| `LogCounters.NetCountsPushes` | pkg/logcounter/log_counter.go:97-103 | the count is the number of pushes after which the pattern matches the buffer, less the number after which the revert pattern, if any, does |
| `LogCounters.FiringsPerMessage` | pkg/logcounter/log_counter.go:97-103 | for a last-line-only pattern the firings are the messages that match alone, whatever the capacity and whatever was pushed before |
| `LogCounters.NetPerMessage` | pkg/logcounter/log_counter.go:97-103 | so the count is a per-message count of the pattern less one of the revert pattern |
| `LogCounters.LogCounter.constructor` | pkg/logcounter/log_counter.go:74-80 | an empty buffer of 1000 lines and the two patterns |
| `LogCounters.LogCounter.Count` | pkg/logcounter/log_counter.go:83-109 | pushes exactly the logs before the first newer one, a close or the timeout; the count is the pushes after which the pattern matches the buffer less those after which the revert pattern does; only a close is an error |
| `IntervalGroups.Build` | pkg/custompluginmonitor/plugin/plugin.go:108-129 | groups with pairwise distinct intervals, each with exactly the rules of its effective interval in original order |
| `IntervalGroups.GroupsPartition` | pkg/custompluginmonitor/plugin/plugin.go:108-129 | every rule index is in exactly one group, at exactly one place, and nothing else is; the group's interval is the rule's own if it has one, else the global one |
| `Scheduler.GroupingConfigures` | pkg/custompluginmonitor/plugin/plugin.go:74-122 | the groups of any rules are fit for scheduling |
| `Scheduler.EveryRuleHasItsPlace` | pkg/custompluginmonitor/plugin/plugin.go:96-122 | the boot batch has every rule, and every rule has exactly one place in exactly one group |
| `SchedulerSafety.InitHolds` | pkg/custompluginmonitor/plugin/plugin.go:57-106 | the invariant holds at the start |
| `SchedulerSafety.StepKeeps` | pkg/custompluginmonitor/plugin/plugin.go:74-210 | every step of every goroutine, of the tickers and of the monitor loop keeps the invariant |
| `SchedulerSafety.ExecutionInv` | pkg/custompluginmonitor/plugin/plugin.go:74-210 | so it holds in every state of every execution |
| `SchedulerSafety.ConcurrencyIsBounded` | pkg/custompluginmonitor/plugin/plugin.go:146-210 | always: tokens in the channel are those of schedulers between acquire and launch plus those of workers not yet released; running rules are at most the tokens, and the tokens at most the configured concurrency |
| `SchedulerSafety.NoTokenIsLost` | pkg/custompluginmonitor/plugin/plugin.go:151-172 | when the plugin has finished, on whichever path, every token was given back |
| `SchedulerSafety.RulesNeverOverlap` | pkg/custompluginmonitor/plugin/plugin.go:96-143 | two workers alive at the same time never have the same rule, boot batch included |
| `SchedulerSafety.BatchesAreWaitedOut` | pkg/custompluginmonitor/plugin/plugin.go:96-143 | a task outside a batch has no worker alive, and no group starts before the boot batch is over |
| `SchedulerSafety.AtMostOneCatchUp` | pkg/custompluginmonitor/plugin/plugin.go:131-143 | however many ticks fire during a batch, at most one more batch follows without a later tick |
| `SchedulerSafety.ClosedOnceAndLast` | pkg/custompluginmonitor/plugin/plugin.go:74-106 | always: the result channel was closed at most once, and exactly once when the plugin is done, only after the stop and when no group or worker is left; nothing is sent on it afterwards and the monitor loop never sees it closed |
| `SchedulerSafety.EveryRunHasOneResult` | pkg/custompluginmonitor/plugin/plugin.go:168-204 | a result was sent if and only if it is in the channel or received, there once; before the stop a finished run's result is in hand or sent, and only after the stop may it be dropped |
| `SchedulerSafety.LateRunsPassedEarly` | pkg/custompluginmonitor/plugin/plugin.go:174-181 | every worker that runs after the stop had passed its stop check before it |
| `SchedulerSafety.StopIsForever` | pkg/util/tomb/tomb.go:33-47 | a stop signal stays |
| `SchedulerLiveness.StepDecreases` | pkg/custompluginmonitor/plugin/plugin.go:131-210 | once stopped, every step of the plugin makes a natural measure smaller, and nothing else makes it larger |
| `SchedulerLiveness.StoppedPluginCanStep` | pkg/custompluginmonitor/plugin/plugin.go:131-210 | once stopped and not done, some step of the plugin is possible |
| `SchedulerLiveness.MeasurePaysForSteps` | pkg/custompluginmonitor/plugin/plugin.go:131-210 | the plugin steps after a stop are bounded by the measure lost |
| `SchedulerLiveness.StopCompletes` | pkg/custompluginmonitor/custom_plugin_monitor.go:136-153 | in every execution: after a stop the plugin takes at most so many steps, is never stuck before it is done, and then the monitor's call of Stop returns |
| `SchedulerProgress.EveryRuleGetsItsRun` | pkg/custompluginmonitor/plugin/plugin.go:145-210 | in every execution, while not stopped: outside a batch, or when all of it is started, every rule of a group has been started exactly once for every tick that the group took, and every rule of the boot batch once |
| `SchedulerProgress.WorkersRunOnce` | pkg/custompluginmonitor/plugin/plugin.go:168-193 | a worker begins and finishes its rule at most once, and has a result exactly when it has finished it |
| `SchedulerProgress.EveryRunIsReported` | pkg/custompluginmonitor/plugin/plugin.go:195-200 | while not stopped, every worker of a task outside a batch has its result in the channel or received |
| `SchedulerProgress.ResultsArriveInOrder` | pkg/custompluginmonitor/plugin/plugin.go:195-200 | results are received in the order in which they were sent |
| `SchedulerProgress.ResultsFit` | pkg/custompluginmonitor/plugin/plugin.go:57-68 | the result channel never holds more than 1000 results, and the plugin is stopped only after the monitor was told to stop |
| `SchedulerProgress.TickIsNotLost` | pkg/custompluginmonitor/plugin/plugin.go:131-143 | a tick waits until its group has begun a batch for it |
| `SchedulerProgress.NeverStuck` | pkg/custompluginmonitor/plugin/plugin.go:131-210 | while not stopped and with a concurrency of at least 1: as long as there is something to do, the plugin can take a step or the monitor loop can take a result |
| `Conditions.FirstOf` | pkg/systemlogmonitor/log_monitor.go:183-206 | the first condition of a type, or none if there is none |
| `Conditions.InitialConditions` | pkg/custompluginmonitor/custom_plugin_monitor.go:316-324 | every default's type, reason and message, with status False and the time of the copy |
| `ConditionManagers.OverlayIsLastSubmitted` | pkg/exporters/k8sexporter/condition/manager.go:95-141 | in every run, pending updates over held conditions read as the last condition submitted for each type |
| `ConditionManagers.DrainForgetsOnlyZero` | pkg/exporters/k8sexporter/condition/manager.go:128-141 | draining keeps that overlay as a map if and only if no zero condition of the empty type is pending with none held |
| `ConditionManagers.ZeroIsForgotten` | pkg/exporters/k8sexporter/condition/manager.go:128-141 | that case is reached from every start: submit the zero condition and the next tick forgets it |
| `ConditionManagers.TickTakesEverything` | pkg/exporters/k8sexporter/condition/manager.go:128-141 | after a tick has drained, nothing is pending and what is held reads as everything submitted so far |
| `ConditionManagers.TickSyncsWhenDue` | pkg/exporters/k8sexporter/condition/manager.go:113-168 | a tick makes an attempt if and only if it changed what is held, there was none before, a failed one is ten seconds old, or the last one is a heartbeat period old; the attempt says whether the tick changed anything |
| `ConditionManagers.AcceptedSyncDelivers` | pkg/exporters/k8sexporter/condition/manager.go:113-168 | an accepted attempt brings every condition submitted before its tick to the server |
| `ConditionManagers.ServerAgreesUnlessResyncDue` | pkg/exporters/k8sexporter/condition/manager.go:113-168 | in every run with no other writer, whenever no resync is due between ticks the server, whatever it held at the start, agrees with every held condition |
| `ConditionManagers.AttemptsAreSpaced` | pkg/exporters/k8sexporter/condition/manager.go:113-168 | in every run, an attempt without a change is at least the shorter period after the attempt before it |
| `ConditionManagers.ServerIsNotFlooded` | pkg/exporters/k8sexporter/condition/manager.go:113-168 | from any moment between ticks on, with a positive heartbeat period: attempts in a window are at most the ticks that changed the held conditions, plus the window over the shorter of ten seconds and the heartbeat period, plus one |
| `ConditionManagers.ChangesAreTicks` | pkg/exporters/k8sexporter/condition/manager.go:113-141 | every attempt that says it was caused by a change belongs to a tick that changed the held conditions |
| `ConditionManagers.NoHeartbeatPeriodSyncsEveryTick` | pkg/exporters/k8sexporter/condition/manager.go:149-152 | in every run without a positive heartbeat period, every tick makes exactly one attempt |
| `ConditionManagers.FailedSyncIsRetried` | pkg/exporters/k8sexporter/condition/manager.go:143-168 | after a failed sync there is another attempt no later than at the first tick that is a resync period after it |
| `ConditionManagers.ApiServer.SetConditions` | pkg/exporters/k8sexporter/condition/manager.go:162-166 | a per-type merge that may fail, merged or not |
| `ConditionManagers.ConditionManager.constructor` | pkg/exporters/k8sexporter/condition/manager.go:81-89 | the start of every run, against a server that may hold anything |
| `ConditionManagers.ConditionManager.UpdateCondition` | pkg/exporters/k8sexporter/condition/manager.go:95-101 | the Submit step |
| `ConditionManagers.ConditionManager.NeedUpdates` | pkg/exporters/k8sexporter/condition/manager.go:128-141 | in whatever order the map is walked: no updates are left, the conditions are drained, and the answer is whether the conditions changed |
| `ConditionManagers.ConditionManager.Sync` | pkg/exporters/k8sexporter/condition/manager.go:154-168 | notes the try, sends every held condition and asks for a resync exactly on failure |
| `ConditionManagers.ConditionManager.Tick` | pkg/exporters/k8sexporter/condition/manager.go:113-126 | one tick is the two steps of the protocol |
| `KmsgWatchers.AtMostOneOpen` | pkg/systemlogmonitor/logwatchers/kmsg/log_watcher_linux.go:94-131 | at every point of a watcher's history at most one parser is open |
| `KmsgWatchers.CreatedClosedOnceOrOpen` | pkg/systemlogmonitor/logwatchers/kmsg/log_watcher_linux.go:94-131 | every parser was closed once, or is open, or was never created |
| `KmsgWatchers.FinishedClosesAll` | pkg/systemlogmonitor/logwatchers/kmsg/log_watcher_linux.go:94-105 | when the loop has exited, every parser ever created was closed exactly once, after seek failures and stops during a restart too |
| `KmsgWatchers.ParsedAfterSeek` | pkg/systemlogmonitor/logwatchers/kmsg/log_watcher_linux.go:180-194 | only an open parser is parsed, and a restarted one only after its seek to the end succeeded |
| `KmsgWatchers.AttemptsKeepDistance` | pkg/systemlogmonitor/logwatchers/kmsg/log_watcher_linux.go:170-203 | creation attempts on the restart path are five seconds apart for each step between them, within a call or across calls |
| `KmsgWatchers.RestartsAreRateLimited` | pkg/systemlogmonitor/logwatchers/kmsg/log_watcher_linux.go:170-203 | a window holds at most its length over five seconds, plus one, attempts |
| `KmsgWatchers.KmsgWatcher.WatchLoop` | pkg/systemlogmonitor/logwatchers/kmsg/log_watcher_linux.go:94-156 | whatever arrives and fails and whenever the stop comes: the history is one that the theorems above are about; the loop exits, and finishes, only after a stop; until then every arrival is dealt with, and delivered are exactly the messages that are not empty and not before the start time, trimmed, in order |
| `KmsgWatchers.KmsgWatcher.Turn` | pkg/systemlogmonitor/logwatchers/kmsg/log_watcher_linux.go:107-154 | a message is delivered unless it is empty or old or the stop comes first; a closed channel closes the parser and goes on with a new one that has been parsed; only a stop exits |
| `KmsgWatchers.KmsgWatcher.Send` | pkg/systemlogmonitor/logwatchers/kmsg/log_watcher_linux.go:145-154 | the message is sent unless the stop has come |
| `KmsgWatchers.TrimCutsSpace` | pkg/systemlogmonitor/logwatchers/kmsg/log_watcher_linux.go:147-148 | trimming cuts white space off both ends and leaves none there |
| `KmsgWatchers.KmsgWatcher.CleanUp` | pkg/systemlogmonitor/logwatchers/kmsg/log_watcher_linux.go:96-105 | closes the parser if there is one and finishes |
| `KmsgWatchers.KmsgWatcher.RetryCreateParser` | pkg/systemlogmonitor/logwatchers/kmsg/log_watcher_linux.go:170-203 | restarts if and only if its last attempt creates and seeks a parser, all before having failed; gives up only after a stop, after which it makes at most one attempt; is cut off only after all its tries; owns a fresh, parsed parser if it restarted and none otherwise |
| `KmsgWatchers.KmsgWatcher.TryCreateParser` | pkg/systemlogmonitor/logwatchers/kmsg/log_watcher_linux.go:180-194 | one attempt: restarts if and only if creation and seek succeed; a parser whose seek fails is closed at once |
| `ProblemMetrics.Int64Metric.Record` | pkg/util/metrics/fakes.go:54-92 | changes the value under exactly these labels, by setting it or by adding in 64-bit arithmetic; a tag that is not allowed or an unknown aggregation is an error and changes no value |
| `ProblemMetrics.AtMostOneReason` | pkg/problemmetrics/problem_metrics.go:87-116 | after every sequence of counts and gauge calls, whichever records fail, at most one reason per problem type is 1 |
| `ProblemMetrics.SetGaugeSets` | pkg/problemmetrics/problem_metrics.go:87-116 | a call whose records succeed sets the gauge of its reason, clears all others of the type and leaves other types alone |
| `ProblemMetrics.ProblemMetricsManager.constructor` | pkg/problemmetrics/problem_metrics.go:47-76 | a summed counter per reason, a last-value gauge per type and reason, nothing shown yet |
| `ProblemMetrics.ProblemMetricsManager.IncrementProblemCounter` | pkg/problemmetrics/problem_metrics.go:78-85 | the metrics show the counter of that reason increased and nothing else changed, or nothing changed if the record fails; the store's value under that reason label grows by the count |
| `ProblemMetrics.ProblemMetricsManager.SetProblemGauge` | pkg/problemmetrics/problem_metrics.go:87-116 | the metrics and the last reason after the call, for each way its two records may fail; on success the store's value under these type and reason labels is 1 or 0 |
| `MonitorMetrics.StartBoardIsZero` | pkg/custompluginmonitor/custom_plugin_monitor.go:93-109 | after initialisation every gauge and every counter reads 0 |
| `MonitorMetrics.GaugesShowConditions` | pkg/custompluginmonitor/custom_plugin_monitor.go:267-275 | from any gauges with at most one reason per type, showing all conditions in order makes the gauges of their types show exactly the active ones, if conditions that share a type are not true |
| `MonitorMetrics.CountersCount` | pkg/custompluginmonitor/custom_plugin_monitor.go:257-266 | whichever records fail, a counter has grown by what the others counted, modulo 2^64 |
| `MonitorMetrics.CountAll` | pkg/custompluginmonitor/custom_plugin_monitor.go:257-266 | one count per event, any of which may fail |
| `Streaks.CauseBeginsStreak` | pkg/systemlogmonitor/log_monitor.go:183-206 | the entry that last changed a condition begins the current run of equal keys, and there is none if nothing differed from the start |
| `CustomPluginMonitors.OneEventPerChange` | pkg/custompluginmonitor/custom_plugin_monitor.go:157-256 | one event and one new transition time exactly when status, reason or message changed; every other condition is untouched |
| `CustomPluginMonitors.ConditionFollowsStreak` | pkg/custompluginmonitor/custom_plugin_monitor.go:157-256 | after every sequence of results, the first condition of a type is given by the result that began the current streak, every later one is as it was at the start |
| `CustomPluginMonitors.ConditionShowsLatest` | pkg/custompluginmonitor/custom_plugin_monitor.go:157-298 | by the exit status of the latest result: 0 gives False with default reason and message, 1 gives True with the rule's reason, anything else Unknown with the default reason; without a result the initial condition |
| `CustomPluginMonitors.ConditionDatesFromStreak` | pkg/custompluginmonitor/custom_plugin_monitor.go:157-256 | transition time and, unless all is well, message are those of the result that began the current run of results that say the same; they are the initial ones as long as all were successes |
| `CustomPluginMonitors.TemporaryResultOnlyWarns` | pkg/custompluginmonitor/custom_plugin_monitor.go:161-171 | a temporary result changes no condition and is a warning, with its time, reason and message, exactly when it is not a success |
| `CustomPluginMonitors.PermanentResultReportsChange` | pkg/custompluginmonitor/custom_plugin_monitor.go:232-251 | a permanent result adds one event exactly when it changed the first condition of its type: a warning if that is now True, else information |
| `CustomPluginMonitors.MetricsFollow` | pkg/custompluginmonitor/custom_plugin_monitor.go:257-275 | after every sequence of results and whichever records fail, at most one reason per type is 1 and each counter shows what the records that did not fail counted, in 64-bit arithmetic |
| `CustomPluginMonitors.CountsAllWarnings` | pkg/custompluginmonitor/custom_plugin_monitor.go:257-266 | when none fails, that is the number of warnings emitted with the reason |
| `CustomPluginMonitors.GaugesHeal` | pkg/custompluginmonitor/custom_plugin_monitor.go:257-275 | whatever failed before: after one status whose gauge records do not fail, every gauge is 1 exactly when its condition is True for its reason, if no permanent rule is about a type that two defaults share |
| `CustomPluginMonitors.GaugesFollow` | pkg/custompluginmonitor/custom_plugin_monitor.go:257-275 | so when nothing fails the gauges are right after every status |
| `CustomPluginMonitors.MetricsNeedUnsharedTargets` | pkg/custompluginmonitor/custom_plugin_monitor.go:257-275 | the gauges are right after every sequence of results of the configured rules if and only if no permanent rule is about a type that two defaults share |
| `CustomPluginMonitors.CustomPluginMonitor.FindDefault` | pkg/custompluginmonitor/custom_plugin_monitor.go:176-189 | reason and message of the first default of the type |
| `CustomPluginMonitors.CustomPluginMonitor.UpdateConditions` | pkg/custompluginmonitor/custom_plugin_monitor.go:172-256 | conditions and events after a permanent result |
| `CustomPluginMonitors.CustomPluginMonitor.ReportMetrics` | pkg/custompluginmonitor/custom_plugin_monitor.go:257-275 | counts the active events and shows every condition in order; the metrics are those after these operations with the records that failed |
| `CustomPluginMonitors.CustomPluginMonitor.GenerateStatus` | pkg/custompluginmonitor/custom_plugin_monitor.go:156-287 | conditions, events and metrics after one result, whichever metric records fail |
| `LogMonitors.ConditionFollowsFirings` | pkg/systemlogmonitor/log_monitor.go:151-207 | after every sequence of firings, the first condition of a type is given by its permanent firings, every later one is as it was at the start |
| `LogMonitors.ConditionLatches` | pkg/systemlogmonitor/log_monitor.go:167-207 | it is True from the first firing on; its reason is the last firing's, its time and message those of the firing that began the current run of that reason |
| `LogMonitors.OneEventPerStreak` | pkg/systemlogmonitor/log_monitor.go:183-206 | there are as many change events as runs of one reason |
| `LogMonitors.FiringIsReported` | pkg/systemlogmonitor/log_monitor.go:167-207 | a temporary firing changes no condition and is a warning with its time, reason and message; a permanent one is a warning exactly when its condition exists and the last firing about it had another reason |
| `LogMonitors.MetricsFollow` | pkg/systemlogmonitor/log_monitor.go:209-224 | after every sequence of firings and whichever records fail, at most one reason per type is 1 and each counter shows what the records that did not fail counted, in 64-bit arithmetic |
| `LogMonitors.CountsAllWarnings` | pkg/systemlogmonitor/log_monitor.go:209-215 | when none fails, that is the number of warnings emitted with the reason |
| `LogMonitors.GaugesHeal` | pkg/systemlogmonitor/log_monitor.go:209-224 | whatever failed elsewhere and before: if the last status about a type was shown without failure, the gauges of that type show exactly its active condition |
| `LogMonitors.GaugesFollow` | pkg/systemlogmonitor/log_monitor.go:209-224 | so when nothing fails the gauges show exactly the active conditions after every status |
| `LogMonitors.StreamIsAllFirings` | pkg/systemlogmonitor/log_monitor.go:151-165 | for every stream: handling one more line from where its firings so far led gives the conditions of all its firings, and appends its events and its metric operations |
| `LogMonitors.TryHandlesFirings` | pkg/systemlogmonitor/log_monitor.go:151-165 | trying the rules of a line one by one gives the conditions, events and metric operations of handling its firings in order |
| `LogMonitors.RuleFiresOnMatch` | pkg/systemlogmonitor/log_monitor.go:151-165 | a rule fires exactly when a line is held and its pattern matches somewhere in the text of the buffer |
| `LogMonitors.FiringTellsTheMatch` | pkg/systemlogmonitor/log_monitor.go:167-171 | with the time of the first line that the leftmost match reaches into, and the joined message of all of them with the suffix |
| `LogMonitors.FiredInOrder` | pkg/systemlogmonitor/log_monitor.go:151-165 | the firing of every rule that matches comes right after those of the rules before it |
| `LogMonitors.FiredIsAll` | pkg/systemlogmonitor/log_monitor.go:151-165 | there is one firing for each rule that matches and no other |
| `LogMonitors.LogMonitor.MakeMessage` | pkg/systemlogmonitor/log_monitor.go:256-266 | the matched messages joined by newlines, and the suffix if there is one |
| `LogMonitors.LogMonitor.UpdateCondition` | pkg/systemlogmonitor/log_monitor.go:182-207 | condition and event after a permanent firing, and which condition it was |
| `LogMonitors.LogMonitor.ReportMetrics` | pkg/systemlogmonitor/log_monitor.go:209-224 | counts the events and shows the changed condition; the metrics are those after these operations with the records that failed |
| `LogMonitors.LogMonitor.GenerateStatus` | pkg/systemlogmonitor/log_monitor.go:167-232 | conditions, events and metrics after one firing, whichever metric records fail |
| `LogMonitors.LogMonitor.ParseLog` | pkg/systemlogmonitor/log_monitor.go:151-165 | pushes the line; conditions, events and metrics are those after the line's firings, one for each rule that matches the buffer, in order, whichever metric records fail |
| `DiskCollectors.DiskCollector.RecordIOCounters` | pkg/systemstatsmonitor/disk_collector.go:179-269 | in any order of devices, exactly the sampled devices' counters are recorded and remembered, each enabled one as the wrapped difference to what was remembered |
| `DiskCollectors.RecordedAreDeltas` | pkg/systemstatsmonitor/disk_collector.go:179-269 | over every run with devices coming and going, what was recorded are the wrapped differences of the device's raw values, the first against 0 |
| `DiskCollectors.DifferencesAddUp` | pkg/systemstatsmonitor/disk_collector.go:179-269 | they sum to the last raw value modulo 2^64, and exactly if and only if the far jumps up and down cancel out |
| `DiskCollectors.EverySeriesAddsUp` | pkg/systemstatsmonitor/disk_collector.go:179-269 | counter by counter: what is recorded under each metric, direction and device sums, modulo 2^64, to that counter of the device's last sample |
| `DiskCollectors.OffRecordsNothing` | pkg/systemstatsmonitor/disk_collector.go:179-269 | nothing is ever recorded for a metric that is off |
| `DiskCollectors.NearJumpsAreExact` | pkg/systemstatsmonitor/disk_collector.go:179-269 | there are no far jumps when successive raw values, from 0, differ by less than 2^63 |

## Left out

- Go's regexp parser and simplifier: the three trees that a compilation parses are inputs, and what is assumed of them is that the grouped one means its branches followed by the end of the text, and the anchored one the same with the end bound to the last branch only. One character is one unit; case folding is a character class; greediness plays no part because only the match start is used.
- `Plugin.run` and everything that starts processes: a rule's run is a step that begins and a step that ends, and it is assumed to end.
- Scheduler: status sends do not block, a ticker is one pending slot, and the tickers are never stopped, which only adds ticks.
- The monitors' loops around `GenerateStatus` and `ParseLog`, and the initial status: sending a value to a channel. Emitted statuses share the monitor's own slice of conditions, so nothing is claimed about a status after it was sent.
- Event texts are kept as the parts that are formatted; quoting of the message is not modelled.
- Metrics that were not initialised, and other monitors: the manager is shared by all monitors, and what is said of gauges and counters is about one monitor alone, from its own initialisation on.
- LogBuffers.LogBuffer.Push: takes a capacity of at least 1, and so do the text and the matcher, because the code divides by the capacity.
- KmsgWatchers.KmsgWatcher.WatchLoop: runs end with the given arrivals and are cut off after `tries` attempts per restart, both arbitrary, so every finite part of an endless run is covered and endless waiting is not excluded.
- API conversion of conditions, heartbeat times and `GetConditions`: straight copying.
- Disk collector: the average queue length (a floating-point ratio), and the ten remembered-value maps are one map keyed by counter and device.
- Exporters, HTTP servers, the problem detector's fan-in, file and journal watchers, the other collectors, the health checker, options and configuration: I/O, or easy one-branch facts.

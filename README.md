# Receptionist core, modelled in Dafny

This project models the in-process orchestration layer of a modular AI
receptionist. It has five cooperating components:

- **Receptionist core** (`CoreEngine.ReceptionistCore`). It holds four optional
  stage slots (activation, speech to text, intent recognition, response
  generation), a pipeline state and a running flag. It owns a module manager,
  an API gateway and a performance monitor. One call of `ProcessAudio` drives an
  audio frame through the stages, dispatches the recognized intent to the active
  domain module, and falls back to the generic generator. Every exit path has
  fixed effects on the monitor, and the state is IDLE afterwards on every path.
- **Module manager** (`ModuleManagement.ModuleManager`). A registry from domain
  name to domain module, with a single optional active name and a two-predicate
  dispatch gate.
- **Performance monitor** (`PerformanceMonitoring.PerformanceMonitor`). An
  append-only metric log with interaction and error counters. It produces a
  summary grouped by `component.metric_name` key and a threshold-based feedback
  report.
- **API gateway** (`ApiGateway.APIGateway`). Two string-keyed handler
  registries whose lookups never let an exception through.
- **LLM manager** (`LlmManagement.LLMManager`). A domain-to-generator map plus
  a default, with a selection rule that picks exactly one generator.

**How the model is built.**

- Stages and domain modules (`interfaces.dfy`) are records of their behaviours.
  Each interface method becomes a field holding what a call returns:
  `Ok(value)`, or `Raised(exception)` when the call raises. So a stage is
  deterministic, and the core's `except` clauses become matches on `Outcome`.
- Calls into plug-ins leave no trace in program state. The specification
  functions therefore return the sequence of plug-in calls a run makes
  (`Traced`, `PipelineRun.calls`, `CleanupRun.calls`). Properties such as
  "`handle` is not called" or "the fallback generator is not called" are stated
  over that trace.
- Each class's methods change its fields under `modifies` frames. The methods
  with loops or several steps are proved against pure functions of the state
  they start from:
  - `ProcessAudio`, which changes the state and the monitor, against `Run`;
  - `GetMetricsSummary`, which changes nothing, against `SummaryOf`: its
    grouping and statistics loops are proved equal to it;
  - `Cleanup`, which changes the flags and both registries, against `CleanupOf`: it completes exactly when `CleanupOf` of the
    configured stages' cleanups does. Which stage cleanups are called, and in
    what order, is stated by `CleanupOf` and `StageCleanupOrder`.
- The try block of `process_audio` is split into `TryStages`, `Transcribing`,
  `Recognizing` and `Responding`, one method per pipeline step. Each is proved
  against the matching step function (`Attempt`, `AfterActivation`,
  `AfterTranscription`, `Respond`).

**Behaviours of the code that are easy to miss, which the model keeps:**

- **Core cleanup.** All four stage cleanups share one `try` block
  (core_engine.py:267-294). The first cleanup that raises therefore skips the
  remaining stage cleanups, the module and gateway cleanup, and the reset of
  `running` and `state`. The model does the same (`CleanupOf`, `Cleanup`,
  `CleanupCompletes`). It does not tolerate individual failures.
- **Empty metric log.** The summary carries only the message, the two counters
  and the duration (performance_monitor.py:63-69). There is no error rate and
  there are no statistics (`Summary.NoMetrics`). Two consequences:
  - feedback never flags a high error rate with an empty log, however many
    interactions failed (`NoMetricsNeverFlagsErrorRate`, `HighErrorRateFlag`);
  - the feedback report's `total_interactions` and `error_rate` are absent
    (`None`).
- **Summary keys.** A summary key is the component and the metric name joined by
  a dot. Two different pairs can therefore share one group. The metric history
  filters by the exact pair (`KeyCollision`, `HistoryWithinGroup`).
- **Python truthiness.**
  - An active module name that is the empty string selects no module
    (module_manager.py:78).
  - An LLM domain that is `None` or empty falls back to the default generator
    (llm_manager.py:36).
- **Exceptions in the LLM manager.** `register_generator` and
  `set_default_generator` do not catch exceptions from `initialize`. Their
  models return the `Outcome`.

## Model

| member | source | states |
|---|---|---|
| `ModuleManagement.ModuleManager.constructor` | module_manager.py:25-27 | no modules and no active module |
| `ModuleManagement.ModuleManager.RegisterModule` | module_manager.py:41-51 | stores the module under the name, replacing any earlier one, exactly when `initialize` returns true; on false or an exception returns false and the registry is unchanged |
| `ModuleManagement.ModuleManager.SwitchModule` | module_manager.py:63-69 | succeeds exactly for a registered name, which becomes active; an unknown name leaves the active name as it was; only the active name may change |
| `ModuleManagement.ModuleManager.GetActiveModule` | module_manager.py:78-80 | a module is returned exactly when the active name is set, non-empty and registered, and it is that name's module |
| `ModuleManagement.ModuleManager.ProcessWithModule` | module_manager.py:96-102 | `handle` is called exactly when the active module exists and `supports_intent` says true, and then its outcome is the answer; with no active module nothing is called and nothing answers; a declining module makes only the `supports_intent` call; a raising `supports_intent` propagates its exception after that one call, and a raising `handle` propagates its own; any response implies the module claimed the intent |
| `ModuleManagement.ModuleManager.ListModules` | module_manager.py:111 | key set equals the registry's, each value is that module's domain name |
| `ModuleManagement.ModuleManager.GetModuleIntents` | module_manager.py:123-125 | an answer exactly for registered names, and then that module's supported intents |
| `ModuleManagement.ModuleManager.HasModule` | module_manager.py:129 | true exactly when `GetModuleIntents` has an answer for the name |
| `ModuleManagement.ModuleManager.GetAllSupportedIntents` | module_manager.py:138-141 | key set equals the registry's, each value agrees with `GetModuleIntents` |
| `ModuleManagement.ModuleManager.CleanupAll` | module_manager.py:143-154 | `cleanup` is called for every registered module, whatever each returns; afterwards the registry is empty and no module is active, so a second call finds nothing to clean |
| `PerformanceMonitoring.PerformanceMonitor.constructor` | performance_monitor.py:26-30 | an empty log and both counters zero, so the monitor starts valid |
| `PerformanceMonitoring.PerformanceMonitor.RecordMetric` | performance_monitor.py:42-47 | the log grows by exactly one entry at the end and earlier entries are unchanged; every pair's history gains the value at its end exactly when the pair is the recorded one |
| `PerformanceMonitoring.PerformanceMonitor.RecordInteraction` | performance_monitor.py:50-54 | interactions always grow by one, errors by one exactly when the interaction failed, so errors never exceed interactions |
| `PerformanceMonitoring.PerformanceMonitor.GetMetricsSummary` | performance_monitor.py:63-99 | the grouping and statistics loops compute exactly `SummaryOf` of the log and counters; on a valid monitor the reported error rate lies in [0, 1] |
| `PerformanceMonitoring.Key` | performance_monitor.py:73 | the key is the component, one `.`, then the metric name, and nothing else |
| `PerformanceMonitoring.StatsOf` | performance_monitor.py:81-87 | count is the number of values and total their sum; minimum and maximum are values of the group that bound every value and the average |
| `PerformanceMonitoring.GroupByKey` | performance_monitor.py:71-76 | the grouping loop maps each key of the log to its values in insertion order |
| `PerformanceMonitoring.GroupStep` | performance_monitor.py:72-76 | one more entry extends its own key's group by its value and leaves every other group unchanged |
| `PerformanceMonitoring.StatisticsOf` | performance_monitor.py:79-87 | the statistics loop gives every group its count, average, minimum, maximum and total |
| `PerformanceMonitoring.SummaryOf` | performance_monitor.py:63-99 | no statistics exactly when the log is empty; otherwise `total_metrics` is the log length and the statistics keys are exactly the keys that occur |
| `PerformanceMonitoring.KeysOfMembers` | performance_monitor.py:72-76 | a key is grouped exactly when some entry joins to it |
| `PerformanceMonitoring.ValuesFor` | performance_monitor.py:72-76 | a key's group is non-empty exactly when the key occurs, and is no longer than the log |
| `PerformanceMonitoring.Min` | performance_monitor.py:84 | the minimum is one of the values and is at most each of them |
| `PerformanceMonitoring.Max` | performance_monitor.py:85 | the maximum is one of the values and is at least each of them |
| `PerformanceMonitoring.SumBounds` | performance_monitor.py:83-86 | the total of values in `[lo, hi]` lies between `count * lo` and `count * hi` |
| `PerformanceMonitoring.QuotientBounds` | performance_monitor.py:83 | the average lies between `lo` and `hi` when the total lies between `n * lo` and `n * hi` |
| `PerformanceMonitoring.AverageBetween` | performance_monitor.py:83 | the average of values in `[lo, hi]` lies in `[lo, hi]` |
| `PerformanceMonitoring.AverageWithinRange` | performance_monitor.py:83-85 | minimum ≤ average ≤ maximum for every group |
| `PerformanceMonitoring.SummaryStatistics` | performance_monitor.py:71-87 | a key has statistics exactly when some entry has it; its count is the number of such entries, the total is their sum, the average is the total over the count, and the minimum and maximum are values of the group that bound it and the average |
| `PerformanceMonitoring.ErrorRate` | performance_monitor.py:95 | 0 without interactions, otherwise rate × interactions = errors; within [0, 1] when errors ≤ interactions |
| `PerformanceMonitoring.Recent` | performance_monitor.py:98 | the last min(10, n) entries of the log, in order |
| `PerformanceMonitoring.History` | performance_monitor.py:165-168 | no longer than the log |
| `PerformanceMonitoring.HistorySingle` | performance_monitor.py:165-168 | a one-entry log gives its value to its own pair's history and nothing to any other pair's |
| `PerformanceMonitoring.HistoryConcat` | performance_monitor.py:165-168 | the history of a concatenated log is the first part's history followed by the second's, so order and multiplicity follow the log |
| `PerformanceMonitoring.HistorySplits` | performance_monitor.py:165-168 | splitting the log at any point splits the history at the matching point |
| `PerformanceMonitoring.HistoryMembers` | performance_monitor.py:165-168 | a value is in a pair's history exactly when some entry of that exact pair recorded it |
| `PerformanceMonitoring.HistoryWithinGroup` | performance_monitor.py:165-168 | a pair's history is no longer than the group of its joined key, and equals it when no other pair joins to that key |
| `PerformanceMonitoring.KeyCollision` | performance_monitor.py:73 | the pairs (`a.b`, `c`) and (`a`, `b.c`) share the group `a.b.c`, while each history keeps only its own pair |
| `PerformanceMonitoring.ReportedErrorRate` | performance_monitor.py:112 | the error rate the feedback reads is 0 for a summary without one, and within [0, 1] for the summary of a valid monitor |
| `PerformanceMonitoring.Recommendations` | performance_monitor.py:109-126 | each of the three warnings appears exactly when its threshold trips (error rate > 0.1, intent-confidence average < 0.7, STT-confidence average < 0.8), in that order; the single "performing well" message appears exactly when none trips; nothing but these four messages appears |
| `PerformanceMonitoring.Advise` | performance_monitor.py:109-126 | the appending code builds exactly the `Recommendations` list |
| `PerformanceMonitoring.NoMetricsNeverFlagsErrorRate` | performance_monitor.py:108-126 | with an empty log the advice is only "performing well", whatever the counters |
| `PerformanceMonitoring.HighErrorRateFlag` | performance_monitor.py:112-113 | the error-rate warning fires exactly when the log is non-empty and the rate exceeds 0.1 |
| `PerformanceMonitoring.QuietSessionAdvice` | performance_monitor.py:112-126 | error rate at most 0.1 and no confidence metric gives exactly the "performing well" advice |
| `PerformanceMonitoring.PerformanceMonitor.GetFeedbackReport` | performance_monitor.py:108-135 | the report carries the fresh summary and its recommendations; total interactions and error rate are absent exactly when the log is empty |
| `PerformanceMonitoring.PerformanceMonitor.ResetSession` | performance_monitor.py:139-142 | empty log, both counters zero |
| `PerformanceMonitoring.PerformanceMonitor.ExportMetrics` | performance_monitor.py:152 | an entry-by-entry copy of the log |
| `PerformanceMonitoring.PerformanceMonitor.GetMetricHistory` | performance_monitor.py:165-168 | a value occurs exactly when an entry of that exact pair recorded it; splitting the log splits the answer (with `HistorySingle`, the values of the pair's entries in log order, with repeats); no longer than the summary group of the joined key |
| `ApiGateway.APIGateway.constructor` | api_gateway.py:24-26 | both registries empty |
| `ApiGateway.APIGateway.RegisterRoute` | api_gateway.py:37 | binds one endpoint, replacing an earlier binding; every other endpoint answers as before; the new handler's results now come back from the endpoint |
| `ApiGateway.APIGateway.RegisterExternalSystem` | api_gateway.py:48 | binds one system, replacing an earlier binding; every other system answers as before |
| `ApiGateway.APIGateway.CallExternalSystem` | api_gateway.py:70-96 | the response echoes the system name; a missing system gives "error" with `System '<name>' not found` and calls nothing; a connector that returns gives "success" with its result; one that raises gives "error" with its message |
| `ApiGateway.APIGateway.HandleRoute` | api_gateway.py:111-121 | a missing endpoint gives `{"error": "Route '<endpoint>' not found"}` and calls nothing; otherwise the handler's result unchanged, or `{"error": message}` when it raises |
| `ApiGateway.ErrorEnvelope` | api_gateway.py:111-121 | a dictionary whose only key is `error`, holding the message |
| `ApiGateway.APIGateway.ListRoutes` | api_gateway.py:125 | key set equals the route registry's, each value is the handler's name |
| `ApiGateway.APIGateway.ListExternalSystems` | api_gateway.py:129 | key set equals the system registry's, each value is the connector's name |
| `ApiGateway.APIGateway.Cleanup` | api_gateway.py:133-134 | both registries empty |
| `LlmManagement.LLMManager.constructor` | llm_manager.py:15-17 | no generators and no default |
| `LlmManagement.LLMManager.RegisterGenerator` | llm_manager.py:19-26 | the answer is what `initialize` returned or raised; the generator is stored under the domain, replacing an earlier one, exactly when it returned true |
| `LlmManagement.LLMManager.SetDefaultGenerator` | llm_manager.py:28-33 | the default is replaced exactly when `initialize` returns true, otherwise kept; an exception from `initialize` propagates |
| `LlmManagement.LLMManager.SelectGenerator` | llm_manager.py:36-43 | a truthy registered domain selects its own generator even when a default exists; otherwise the default; otherwise `ValueError("No suitable generator found")` |
| `LlmManagement.LLMManager.GenerateResponse` | llm_manager.py:35-45 | exactly one `generate` call, on the selected generator, whose outcome is returned unchanged; no call and a `ValueError` when nothing is selected |
| `CoreEngine.ReceptionistCore.constructor` | core_engine.py:34-46 | IDLE, not running, every stage slot empty; a fresh empty module manager, a fresh empty gateway and a fresh monitor with an empty log and zero counters |
| `CoreEngine.ReceptionistCore.SetActivationEngine` | core_engine.py:63-71 | installs the engine exactly when `initialize` returns true; false or an exception leaves the slot as it was |
| `CoreEngine.ReceptionistCore.SetSttProcessor` | core_engine.py:83-91 | as above, for the speech-to-text slot |
| `CoreEngine.ReceptionistCore.SetIntentRecognizer` | core_engine.py:103-111 | as above, for the intent-recognizer slot |
| `CoreEngine.ReceptionistCore.SetResponseGenerator` | core_engine.py:123-131 | as above, for the response-generator slot |
| `CoreEngine.Respond` | core_engine.py:188-204 | after dispatch: one interaction, successful exactly when there is a response, unless a stage raised; no metrics; `generate` only when configured |
| `CoreEngine.AfterTranscription` | core_engine.py:176-204 | from intent recognition on: at most one metric, one interaction unless a stage raised |
| `CoreEngine.AfterActivation` | core_engine.py:164-204 | from speech to text on: at most two metrics, one interaction unless a stage raised |
| `CoreEngine.Attempt` | core_engine.py:153-204 | the try block returns without recording an interaction exactly when the wake word is absent; an exception leaves the interaction to the handler |
| `CoreEngine.Run` | core_engine.py:153-213 | a filtered frame gives no response, records nothing and calls only `detect`; every other run records exactly one interaction, successful exactly when there is a response; with no STT stage, no response, no metric and one failed interaction; with STT but no recognizer, no response, exactly the `stt.confidence` metric and one failed interaction; at most two confidence metrics; `generate` only when configured; when the try block raises, no response and one failed interaction, keeping the metrics and calls made before the raise |
| `CoreEngine.StageFailures` | core_engine.py:153-210 | a raising `detect`, `transcribe` or `recognize` ends the run with no response and one failed interaction, keeps exactly the metrics recorded before it, and makes no later stage call |
| `CoreEngine.DispatchRaises` | core_engine.py:191-210 | an active module whose `supports_intent` raises, or which claims the intent and whose `handle` raises, ends the run with no response and one failed interaction, without calling the fallback generator |
| `CoreEngine.RunReachingDispatch` | core_engine.py:171-191 | a run that reaches dispatch records `stt.confidence` then `intent_recognizer.confidence`, and calls transcribe then recognize |
| `CoreEngine.DomainResponseWins` | core_engine.py:191-200 | when the domain module answers, that answer is returned as a success and the fallback generator is not called |
| `CoreEngine.FallbackGenerator` | core_engine.py:191-204 | when dispatch yields nothing, the configured fallback's answer is returned; with no fallback the run fails and `generate` is not called |
| `CoreEngine.ReceptionistCore.TryStages` | core_engine.py:153-162 | the try block changes the log and counters exactly as `Attempt` says and ends with its outcome |
| `CoreEngine.ReceptionistCore.Transcribing` | core_engine.py:164-204 | steps 2 to 4 change the log and counters exactly as `AfterActivation` says |
| `CoreEngine.ReceptionistCore.Recognizing` | core_engine.py:176-204 | steps 3 and 4 change the log and counters exactly as `AfterTranscription` says |
| `CoreEngine.ReceptionistCore.Responding` | core_engine.py:187-204 | step 4 changes the counters exactly as `Respond` says |
| `CoreEngine.ReceptionistCore.ProcessAudio` | core_engine.py:153-213 | the response, the appended metrics and the counter changes are those of `Run`; the state is IDLE afterwards on every path |
| `CoreEngine.ReceptionistCore.Start` | core_engine.py:222 | running is set; nothing else changes |
| `CoreEngine.ReceptionistCore.Stop` | core_engine.py:227 | running is cleared; nothing else changes |
| `CoreEngine.ReceptionistCore.GetStatus` | core_engine.py:245-251 | the running flag, the state, the active module name and exactly the registered module names |
| `CoreEngine.ReceptionistCore.GetPerformanceReport` | core_engine.py:255 | the monitor's summary of its current log and counters |
| `CoreEngine.ReceptionistCore.GetFeedbackReport` | core_engine.py:259 | the monitor's report unchanged: its current summary, that summary's recommendations, and total interactions and error rate that are absent exactly when the log is empty |
| `CoreEngine.StageCleanupOrder` | core_engine.py:270-284 | the cleanup list holds each configured stage once, with its own cleanup outcome, in the order activation, speech to text, recognition, generation |
| `CoreEngine.CleanupOf` | core_engine.py:267-294 | the stage cleanups are called in order up to and including the first that raises; the cleanup completes exactly when none raises |
| `CoreEngine.AllReturnConcat` | core_engine.py:270-284 | a concatenation of cleanup lists has no raising cleanup exactly when neither part has one |
| `CoreEngine.CleanupCompletes` | core_engine.py:267-294 | the core's cleanup completes exactly when no configured stage's cleanup raises |
| `CoreEngine.ReceptionistCore.Cleanup` | core_engine.py:265-294 | a completed cleanup cleans every registered module, empties the module and gateway registries, clears running and leaves the state IDLE; one cut short by a raising stage cleanup changes none of these |

## Left out

- Logging, `datetime` (session start, session duration, timestamps in the summary, the feedback report and the status) and the string values of `SystemState` are not modelled. The state is the enum itself.
- Metric values are reals, not IEEE floats. Averages are exact quotients.
- Plug-ins are stateless and deterministic. The same call with the same arguments always has the same outcome, and a plug-in's own state cannot change from one call to the next.
- `get_domain_name` and `get_supported_intents` of a domain module are plain values that cannot raise.
- A handler or generator that returns `None` (or another falsy value) instead of a `DialogueResponse` is not modelled. `handle` and `generate` always return a response or raise.
- Dictionary iteration order is not modelled:
  - `CleanupAll` does not fix the order in which modules are cleaned;
  - `GetStatus` reports the registered module names as a set, not as a list in insertion order.
- `IsRunning` and `GetActiveModuleName` only return a field, so they carry no contract of their own. `Start` and `Stop` state what they set.
- `export_metrics` turns each entry into a dictionary. The model returns the entries themselves.
- `ModuleManagement.ModuleManager.CleanupAll`, `CoreEngine.ReceptionistCore.Cleanup`: which modules were cleaned is recorded as a ghost set. The order of the `cleanup` calls is not recorded.
- `PerformanceMonitoring.History`: the function states only its length bound itself. Its exact contents, order and repeats are stated by `HistorySingle` and `HistoryConcat`, which fix it entry by entry, and its values by `HistoryMembers`.
- `record_interaction`'s default argument `success=True` is not modelled. Callers of `RecordInteraction` always pass the flag.
- `list_routes` and `list_external_systems` read `handler.__name__`, which raises for a callable without one. The model gives every handler a name, so the listings never fail.
- `recent_metrics` turns each entry into a dictionary with `asdict`. The model keeps the entries themselves.
- `data_models.py` is not part of this model. Only the fields that the modelled code reads or constructs are declared.

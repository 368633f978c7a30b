# RealtimeVoiceChat core, modelled in Dafny

RealtimeVoiceChat is a voice-chat server for a Raspberry Pi 5. Browsers talk
to it over WebSockets, and Piper turns the replies into speech. This project
models the parts of it that keep state or make decisions. Each part is proved
against a specification:

- **Session registry** (`sessions.dfy`). Sessions are keyed by id and are
  Connected or Disconnected. They expire strictly after an inactivity
  timeout, and each keeps a conversation buffer of at most 100 turns.
- **Thermal protection** (`thermal.dfy`). A two-state hysteresis machine with
  a trigger/resume gap. A -1.0 reading means "no reading", and observers are
  notified once per flip.
- **Exponential backoff** (`backoff.py` → `backoff.dfy`). The delay is
  `min(initial·2^attempt, max)`, with an attempt counter, a give-up rule, a
  reset and the total wait. From attempt 1024 on, the float power
  overflows and the call raises.
- **Production bookkeeping** (`production.dfy`):
  - per-address failure counting with permanent blocking;
  - the input screen;
  - a connection table with a capacity limit, an expiry sweep and statistics.
- **Piper voice handling** (`voices.dfy`, `synthesis.dfy`):
  - display names, gender and quality inference, configuration migration and
    default-voice selection;
  - chunked audio delivery, three-chunk text batching and streaming chunk
    indexes.
- **Message validation** (`validators.dfy`): the type whitelist and the
  5000-character text limit.
- **Health classifiers** (`health.dfy`, `pi5.dfy`): memory and swap
  thresholds in bytes, and CPU temperature bands.
- **Exceptions** (`errors.dfy`): the application exception hierarchy and its
  wire form.
- **Test dashboard** (`test_monitor.dfy`): counters and a 20-entry detail
  history.
- **Report scoring**:
  - the security audit's risk level (`security_audit.dfy`);
  - the production-readiness score (`readiness.dfy`).

Some inputs are parameters:

- the wall clock, as `now` in seconds;
- sensor readings, and the byte counts psutil reports;
- the result of a socket send;
- the Piper synthesizer, as an uninterpreted function from text to bytes, or to nothing where it raises;
- the stop event, as the index of the first stop check that sees it set.

Shared pieces:

- `wrappers.dfy`: Option, Result and Outcome.
- `seqs.dfy`: flattening.
- `bounded.dfy`: the append-then-trim history used both by the session buffer
  and by the dashboard's detail list.
- `text.dfy`: the Python string operations the core uses (`lower`,
  `capitalize`, `replace`, `split`, `join`, `in`).

Python floats are modelled as exact `real`s. Source integers are unbounded
`int`/`nat`, as Python's are.

## Model

| member | source | states |
|---|---|---|
| Backoff.Pow2 | src/utils/backoff.py:119 | 2 to any power is at least 1 |
| Backoff.Pow2Monotone | src/utils/backoff.py:119 | a larger attempt number never gives a smaller power of two |
| Backoff.DelayBounds | src/utils/backoff.py:119-122 | every delay lies between the initial delay and the cap |
| Backoff.DelayMonotone | src/utils/backoff.py:119-122 | successive delays never decrease |
| Backoff.ConstantDelay | src/utils/backoff.py:119-122 | when the cap equals the initial delay, every delay is the initial delay |
| Backoff.DefaultDelays | src/utils/backoff.py:40-49 | with 1 s / 30 s the delays run 1, 2, 4, 8, 16, then 30 for every later attempt |
| Backoff.TotalWaitBounds | src/utils/backoff.py:181-186 | n attempts wait between n·initial and n·max in total |
| Backoff.DefaultTotalWait | src/utils/backoff.py:52-57 | the defaults (1 s, 30 s, 10 attempts) wait 181 s in total |
| Backoff.ExponentialBackoff.Init | src/utils/backoff.py:74-77 | stores the three settings and starts at attempt 0 |
| Backoff.ExponentialBackoff.Create | src/utils/backoff.py:52-77 | construction fails iff initial ≤ 0 or max < initial, and a non-positive initial delay is reported first; otherwise the calculator is at attempt 0 |
| Backoff.ExponentialBackoff.NextDelay | src/utils/backoff.py:99-127 | an overflow error iff the attempt before the call is 1024 or more, with the attempt unchanged; otherwise returns min(initial·2^attempt, max) for that attempt, always within [initial, max], and the attempt goes up by exactly one |
| Backoff.ExponentialBackoff.ShouldGiveUp | src/utils/backoff.py:129-145 | never gives up without a limit, and gives up at once with a limit of 0 |
| Backoff.ExponentialBackoff.Reset | src/utils/backoff.py:147-162 | the attempt is 0, so the next delay is the initial one again; give-up is cleared unless the limit is 0 |
| Backoff.ExponentialBackoff.GetTotalWaitTime | src/utils/backoff.py:164-186 | an error iff the attempts are unlimited (that error) or the limit exceeds 1024 (the overflow error); otherwise the sum of the delays of attempts 0 … max−1, with the attempt counter untouched |
| Backoff.ExponentialBackoff.DelaysUntilGiveUp | src/utils/backoff.py:28-38 | the documented retry loop raises the overflow error iff it reaches attempt 1024 before the limit, stopping there; otherwise it ends in give-up, the delays it takes are those of consecutive attempts, and starting from a reset they add up to the total wait time |
| Bounded.Window | src/session/session_manager.py:63 | the retained history holds min(length, capacity) entries |
| Bounded.PushWindow | src/session/session_manager.py:63 | appending to a trimmed history equals trimming the extended history, so the oldest entry is dropped first |
| Bounded.PushAllIsWindow | monitoring/test_monitor.py:151-153 | appending entries one at a time keeps exactly the newest `cap` of them, in order |
| Errors.NewError | src/exceptions.py:15-26 | the base exception keeps its message and context; its code defaults to INTERNAL_ERROR |
| Errors.ToDict | src/exceptions.py:28-37 | the wire form is of type "error"; its data has the code, the message, and every context entry except "message" |
| Errors.NewValidationError | src/exceptions.py:43-54 | a "code" keyword becomes the code (default VALIDATION_ERROR) and leaves the context; "field" is in the context iff a truthy field was given |
| Errors.WithFixedCode | src/exceptions.py:68-73 | a subclass with a fixed code adds its named entry to the context; a caller's "code" keyword makes construction fail with a duplicate-keyword error |
| Errors.NewHealthCheckError | src/exceptions.py:60-73 | code HEALTH_CHECK_FAILED with the component in the context; fails iff the caller passes "code" |
| Errors.NewMonitoringError | src/exceptions.py:79-92 | code MONITORING_ERROR with the metric in the context; fails iff the caller passes "code" |
| Errors.NewSecurityViolation | src/exceptions.py:98-111 | code SECURITY_VIOLATION with the violation type in the context; fails iff the caller passes "code" |
| Errors.WireFormKeepsCodeAndMessage | src/exceptions.py:28-37 | on the wire, data.code and data.message are the exception's own, and every context key is present |
| Errors.ValidationWireForm | src/exceptions.py:43-54 | a validation error's wire form has its code and message, and "field" iff a truthy field was given |
| Errors.HealthCheckWireForm | src/exceptions.py:60-73 | a health-check error's wire form has HEALTH_CHECK_FAILED, its component and its message |
| Health.Worst | src/monitoring/pi5_monitor.py:81-102 | combining two statuses gives the more severe of them |
| Health.Classify | src/health_checks.py:148-177 | healthy iff neither a memory nor a swap alert is raised; unhealthy iff a critical memory or critical swap alert is; degraded otherwise |
| Health.MemoryAlerts | src/health_checks.py:155-163 | at most one memory alert, and none iff more than 1 GiB is available |
| Health.SwapAlerts | src/health_checks.py:169-177 | at most one swap alert, and none iff less than 2 GiB of swap is used |
| Health.CheckSystemResources | src/health_checks.py:128-183 | status is unhealthy iff memory ≤ 500 MiB or swap ≥ 4 GiB, healthy iff memory > 1 GiB and swap < 2 GiB, degraded otherwise; component "system"; details are None iff nothing tripped, else the memory alert then the swap alert |
| Health.ClassifyMonotone | src/health_checks.py:152-177 | more free memory and less swap never make the status worse |
| Health.Boundaries | src/health_checks.py:155-173 | every threshold is inclusive: exactly 500 MiB, 1 GiB, 4 GiB and 2 GiB land in the worse band |
| Pi5.TemperatureBands | src/monitoring/pi5_monitor.py:22-57 | the status is unhealthy iff the reading is ≥ 80 and is never degraded; -1.0 means monitoring is unavailable; the 85 and 75 bands choose only the message |
| Pi5.TemperatureStatus | src/monitoring/pi5_monitor.py:22-57 | the "unavailable" message iff the reading is -1.0, every other message carries the reading, and the status is unhealthy iff the message is the emergency or the throttling one |
| Pi5.ResourceStatus | src/monitoring/pi5_monitor.py:60-117 | the overall status is the worse of the temperature status and the memory/swap classification; the alerts are memory, then swap, then the temperature message unless it is the normal one |
| Pi5.ResourceAlerts | src/monitoring/pi5_monitor.py:84-102 | there are at most two resource alerts, and when there are two the memory alert comes first |
| Pi5.TemperatureAlert | src/monitoring/pi5_monitor.py:104-106 | the temperature alert is absent iff a real reading is below 75 |
| Pi5.UnhealthyWins | src/monitoring/pi5_monitor.py:81-102 | a reading ≥ 80, or critical memory or swap, makes the device unhealthy whatever else holds; below 80, the memory/swap classification decides |
| Production.HourPhase | production/production_server.py:99 | the time modulo an hour lies in [0, 3600) |
| Production.UpperCaseScriptRefused | production/production_server.py:72-79 | the screen is case-blind: a capitalised script tag anywhere in the text is refused |
| Production.SecurityManager.constructor | production/production_server.py:50-53 | a fresh manager has no failures and no blocked addresses |
| Production.SecurityManager.ValidateInput | production/production_server.py:70-86 | non-text input is accepted; text is accepted iff its lower-cased form holds none of the five patterns and it is no longer than the size limit |
| Production.SecurityManager.CheckRateLimit | production/production_server.py:88-102 | disabled means allowed; a blocked address is refused; otherwise failures are cleared in the first minute of an hour, and the address is allowed iff it has fewer than five; with the blocking invariant, allowed iff not blocked |
| Production.SecurityManager.RecordFailedAttempt | production/production_server.py:104-109 | adds exactly one to the address's count, blocks it at five, and never unblocks anybody |
| Production.BlockedStaysBlocked | production/production_server.py:88-109 | a blocked address stays refused after the periodic clear and after further failures |
| Production.FiveFailuresBlock | production/production_server.py:104-109 | five failures in a row block a fresh address and the next check refuses it |
| Production.ProductionWebSocketManager.constructor | production/production_server.py:114-117 | the three tables start empty |
| Production.ProductionWebSocketManager.Connect | production/production_server.py:119-137 | refused with no change iff the table is full; otherwise the id is registered in all three tables with a message count of 0 |
| Production.ProductionWebSocketManager.Disconnect | production/production_server.py:139-148 | removes the id from all three tables; an unknown id changes nothing |
| Production.ProductionWebSocketManager.SendPersonalMessage | production/production_server.py:150-169 | an unknown id fails with no change; a successful send adds one message and refreshes the activity time; a failed send disconnects the id |
| Production.ProductionWebSocketManager.ExpiredSessions | production/production_server.py:173-178 | lists exactly the ids idle for longer than the session timeout |
| Production.ProductionWebSocketManager.DisconnectAll | production/production_server.py:180-186 | disconnecting the listed ids removes exactly those ids from every table |
| Production.ProductionWebSocketManager.CleanupExpiredSessions | production/production_server.py:171-189 | exactly the expired sessions leave all three tables, and the rest are untouched |
| Production.ProductionWebSocketManager.GetStats | production/production_server.py:191-207 | the table size; the number of sessions active within 300 s; the sum of the message counts; and the uptime |
| Production.ActiveTotal | production/production_server.py:196-199 | counting one per session idle for less than 300 s counts exactly the active sessions |
| Readiness.GradesWithinTotal | monitoring/production_optimization.py:773-780 | the excellent and good results together never outnumber all results |
| Readiness.PointsByCounts | monitoring/production_optimization.py:786-787 | the source's formula from the three counts equals the sum of the per-result weights (100 / 80 / 50) |
| Readiness.PointsBounds | monitoring/production_optimization.py:786-787 | every result is worth between 50 and 100 points |
| Readiness.RoundHalfEvenNearest | monitoring/production_optimization.py:789 | round() lands within a half of the exact quotient, and a tie goes to the even neighbour |
| Readiness.RoundWithin | monitoring/production_optimization.py:789 | a quotient between two whole numbers rounds to a value between them |
| Readiness.RoundExact | monitoring/production_optimization.py:789 | a whole quotient rounds to itself |
| Readiness.ScoreBounds | monitoring/production_optimization.py:782-789 | no results score 0; otherwise the score lies in [50, 100] |
| Readiness.PointsUniform | monitoring/production_optimization.py:786-787 | results that all have one grade are worth that grade's weight each |
| Readiness.UniformScore | monitoring/production_optimization.py:786-789 | all EXCELLENT scores 100, all GOOD 80, all other 50 |
| Readiness.CalculateReadinessScore | monitoring/production_optimization.py:767-789 | the nested counting loops compute the score of all results flattened into one list |
| Readiness.DeploymentChecklist | monitoring/production_optimization.py:791-809 | the fixed checklist has fifteen items |
| Readiness.OptimizationRecommendations | monitoring/production_optimization.py:811-831 | the fixed advice has fifteen entries |
| Readiness.AdviceIgnoresResults | monitoring/production_optimization.py:811-831 | the advice is the same whatever the optimisation results |
| SecurityAudit.RiskBandByCounts | monitoring/security_audit.py:785-792 | the ratio bands in whole numbers: no failure is LOW; 5·failed ≤ total is MEDIUM; 2·failed ≤ total is HIGH; otherwise CRITICAL |
| SecurityAudit.RiskMonotone | monitoring/security_audit.py:785-792 | with the total fixed, more failures never lower the risk |
| SecurityAudit.RiskExamples | monitoring/security_audit.py:785-792 | an empty audit is LOW, 1 of 5 is MEDIUM, 1 of 4 and 1 of 2 are HIGH, 2 of 3 is CRITICAL |
| SecurityAudit.CalculateRiskLevel | monitoring/security_audit.py:774-792 | the nested counting loops rate every result of every category, counting only status "FAIL" as a failure; LOW iff nothing failed |
| SecurityAudit.SecurityRecommendations | monitoring/security_audit.py:794-814 | the fixed advice has fifteen entries |
| SecurityAudit.RecommendationsIgnoreResults | monitoring/security_audit.py:794-814 | the advice is the same whatever the audit results |
| Sessions.ExpiryIsStrict | src/session/session_manager.py:67-78 | a session is still live at exactly the timeout and expired any time after it |
| Sessions.WebSocketSession.IsExpired | src/session/session_manager.py:67-78 | expired iff now is strictly past the last activity plus the timeout (5 minutes by default); never expired at or before the last activity |
| Sessions.RecentMessages | src/session/session_manager.py:111-125 | keeps exactly the messages newer than the cutoff, and never more than the buffer holds |
| Sessions.RecentMessagesAppend | src/session/session_manager.py:121-125 | the filter distributes over concatenation, so it keeps buffer order |
| Sessions.RecentMessagesAllNewer | src/session/session_manager.py:121-125 | when every message is newer than the cutoff, the whole buffer comes back |
| Sessions.HundredFiftyAdds | src/session/session_manager.py:95-109 | 150 adds to an empty buffer leave messages 50 to 149 |
| Sessions.SeedMessages | src/session/session_manager.py:199-207 | one message per seed entry in the given order, stamped `now`; a missing role is "user" and missing content is "" |
| Sessions.WebSocketSession.constructor | src/session/session_manager.py:40-65 | a new session is disconnected, with no attempts, no history and both times at `now` |
| Sessions.WebSocketSession.Touch | src/session/session_manager.py:80-82 | the activity time becomes `now` |
| Sessions.WebSocketSession.MarkConnected | src/session/session_manager.py:84-88 | CONNECTED, zero reconnection attempts, touched; the history is not in the frame |
| Sessions.WebSocketSession.MarkDisconnected | src/session/session_manager.py:90-93 | DISCONNECTED and touched; the attempts and the history are not in the frame |
| Sessions.WebSocketSession.AddMessage | src/session/session_manager.py:95-109 | appends the stamped turn to the capped buffer, dropping the oldest when full; touches the session |
| Sessions.WebSocketSession.GetRecentContext | src/session/session_manager.py:111-125 | exactly the buffered messages newer than now − window, in buffer order |
| Sessions.WebSocketSession.ToDict | src/session/session_manager.py:127-140 | carries the session id and a message count of at most 100; the state reads "CONNECTED" iff the session is connected |
| Sessions.SeededSession | src/session/session_manager.py:197-207 | adding the seed messages one by one leaves the newest 100 of them in order, on a session that is still disconnected |
| Sessions.SessionManager.constructor | src/session/session_manager.py:172-185 | an empty registry with the given timeout and cleanup interval |
| Sessions.SessionManager.CreateSession | src/session/session_manager.py:187-214 | inserts one unused id and keeps every other entry; the new session is CONNECTED with 0 attempts and holds the seed messages |
| Sessions.SessionManager.GetSession | src/session/session_manager.py:216-241 | an unknown id gives null and no change; an expired id is evicted and gives null; a live id gives the stored session and no change |
| Sessions.SessionManager.RestoreSession | src/session/session_manager.py:243-265 | GetSession, then on a hit marks the session connected with its history unchanged |
| Sessions.SessionManager.DisconnectSession | src/session/session_manager.py:267-282 | a known session becomes disconnected and touched, keeping its attempts and history; an unknown id changes nothing |
| Sessions.SessionManager.TouchSession | src/session/session_manager.py:284-294 | a known session is touched, and its state, reconnection attempts and history are unchanged; an unknown id changes nothing |
| Sessions.SessionManager.UpdateSession | src/session/session_manager.py:296-308 | a known session gets the turn appended to its capped buffer and is touched, with its state and reconnection attempts unchanged; an unknown id changes nothing |
| Sessions.SessionManager.DeleteSession | src/session/session_manager.py:310-324 | removes the id whether or not it has expired; an unknown id changes nothing |
| Sessions.SessionManager.CleanupExpiredSessions | src/session/session_manager.py:326-348 | removes exactly the expired sessions, returns how many there were, and leaves the rest untouched |
| Sessions.SessionManager.GetStats | src/session/session_manager.py:350-369 | total = active + disconnected = the number of sessions |
| Sessions.DisconnectThenRestore | src/session/session_manager.py:243-282 | a disconnect followed by a restore within the timeout returns the same session, connected, with every message kept in order |
| Synthesis.Chunks | src/audio_module.py:774-780 | there are no chunks iff the audio is empty |
| Synthesis.ChunkSizes | src/audio_module.py:774-780 | every chunk holds 1 to 8192 bytes, and every chunk but the last holds exactly 8192 |
| Synthesis.FlattenChunks | src/audio_module.py:774-782 | the chunks joined back together are the audio |
| Synthesis.ChunkQueue.Put | src/audio_module.py:782 | the chunk joins the end of the queue |
| Synthesis.PutChunk | src/audio_module.py:780-782 | queues the slice starting at i, which is the first chunk of the rest of the audio |
| Synthesis.DeliverChunks | src/audio_module.py:775-782 | queues the chunks in order up to the first stop check that sees the event set; success iff every chunk went out |
| Synthesis.Delivered | src/audio_module.py:769-778 | never more chunks than the audio has |
| Synthesis.SynthesizePiper | src/audio_module.py:742-807 | without an engine, or when the synthesis raises (caught at 805-807), the result is false and nothing is queued; otherwise a prefix of the chunks is queued, and the result is true iff the stop event was never seen |
| Synthesis.BatchingPartitions | src/audio_module.py:835-846 | the batches followed by the buffered remainder are the non-empty text chunks, in order |
| Synthesis.BatchSizes | src/audio_module.py:840-846 | every batch holds three chunks, and fewer than three stay buffered |
| Synthesis.NonEmptyHasNoEmpty | src/audio_module.py:840-841 | empty text chunks never reach a batch |
| Synthesis.ConcatNonEmpty | src/audio_module.py:840-841 | skipping empty chunks does not change the text |
| Synthesis.ConcatBatches | src/audio_module.py:835-880 | the synthesized texts joined together are the streamed text |
| Synthesis.CompleteIsPrefix | src/audio_module.py:877-880 | the audio of the complete batches is a prefix of all the audio |
| Synthesis.DeliverBatch | src/audio_module.py:852-875 | a raising synthesis fails with nothing queued; otherwise the batch's delivery extends what was queued within the bound, completely when not stopped |
| Synthesis.BatchStep | src/audio_module.py:835-875 | one pass of the text loop keeps the buffer and the batches in step with the chunks seen, every batch so far synthesized, and the queue a prefix of the complete-batch audio; with no stop, ending the pass means a batch raised, and the queue holds the audio of the batches before it |
| Synthesis.FinalFlush | src/audio_module.py:877-908 | what is queued is always a prefix of all the audio; success means all of it with every text synthesized, or the complete batches only; with no stop it succeeds iff the remainder synthesizes too, and the queue holds the audio up to the first raising text |
| Synthesis.SynthesizeGeneratorPiper | src/audio_module.py:809-908 | nothing queued is taken back; what is queued is always a prefix of the audio of all batches; success means all of it with every batch synthesized, or only the complete batches when the stop comes just before the flush; with no stop the result is true iff every batch synthesizes, and the queue holds the audio of the batches before the first that raises (earlier batches stay queued) |
| Synthesis.Synthesized | src/audio_module.py:852-908 | the number of leading batches that synthesize: every batch before it does, and the batch at it raises |
| Synthesis.SynthesizedAll | src/audio_module.py:852-908 | no batch raises before the end iff every batch synthesizes |
| Synthesis.FirstFailure | src/audio_module.py:852-908 | a raising batch right after batches that all synthesized is the first failure, and not every batch synthesizes |
| TestDashboard.RemoveFirst | monitoring/test_monitor.py:68 | list.remove leaves one entry fewer |
| TestDashboard.RemoveFirstMultiset | monitoring/test_monitor.py:68 | list.remove takes out exactly one copy of the client |
| TestDashboard.ReportKeepsTracking | monitoring/test_monitor.py:132-153 | recording one report keeps the counters equal to the per-status counts and the details equal to the newest 20 reports |
| TestDashboard.TestMonitor.constructor | monitoring/test_monitor.py:32-54 | no clients, zeroed results, not running |
| TestDashboard.TestMonitor.Connect | monitoring/test_monitor.py:56-59 | the client joins the end of the list |
| TestDashboard.TestMonitor.Disconnect | monitoring/test_monitor.py:65-69 | a present client loses its first entry; otherwise nothing changes |
| TestDashboard.TestMonitor.StartTestRun | monitoring/test_monitor.py:116-130 | counters zeroed, details cleared, total and command set, running; only the coverage is kept |
| TestDashboard.TestMonitor.UpdateTestProgress | monitoring/test_monitor.py:132-153 | the duration defaults to 0; only the counter of the exact status goes up by one; the report joins the newest-20 details; the current test is set; nothing else changes |
| TestDashboard.TestMonitor.FinishTestRun | monitoring/test_monitor.py:155-168 | the coverage defaults to 0; stops the run, sets the end time, coverage and "Test run complete", and the duration when a start time exists; counters and details are kept |
| TestDashboard.TestMonitor.UpdateCoverage | monitoring/test_monitor.py:170-172 | only the coverage changes |
| TestDashboard.CountersBounded | monitoring/test_monitor.py:136-141 | the counters never add up to more than the reports, and they account for all reports when every status is one of the three |
| TestDashboard.TwentyFiveReports | monitoring/test_monitor.py:151-153 | 25 reports keep reports 5 to 24 |
| Text.Lower | production/production_server.py:75 | str.lower on ASCII: each character A–Z becomes its lower-case letter, every other character is kept, position by position |
| Text.Capitalize | src/audio_module.py:348 | str.capitalize on ASCII: the first character is raised (a–z only) and the rest lowered (A–Z only) |
| Text.ReplaceChar | src/audio_module.py:331 | str.replace on one character replaces every occurrence and leaves no copy of the old character |
| Text.Split | src/audio_module.py:331 | str.split gives at least one part, and no part holds the separator |
| Text.JoinSplit | src/audio_module.py:331 | joining the parts of a split gives the string back |
| Text.SplitJoin | src/audio_module.py:331 | splitting a join of separator-free parts gives the parts back |
| Thermal.GapReadingKeepsState | src/monitoring/thermal_monitor.py:80-135 | a reading in [resume, trigger) never changes the protection flag |
| Thermal.ThermalState.ShouldTriggerProtection | src/monitoring/thermal_monitor.py:80-94 | true iff protection is off and the hysteresis step would switch it on |
| Thermal.ThermalState.ShouldResumeNormal | src/monitoring/thermal_monitor.py:96-110 | true iff protection is on and the hysteresis step would switch it off |
| Thermal.StaysProtected | src/monitoring/thermal_monitor.py:96-135 | once protected, readings at or above resume (or missing) keep protection on with no flip |
| Thermal.OscillationFlipsOnce | src/monitoring/thermal_monitor.py:112-135 | 82, 85, 83, 86, 84, 87, 83 against 85/80 flips exactly once and ends protected; a following 79 flips back |
| Thermal.ThermalState.constructor | src/monitoring/thermal_monitor.py:56-78 | starts at -1.0, not protected, with no trigger or resume time |
| Thermal.ThermalState.UpdateTemperature | src/monitoring/thermal_monitor.py:112-135 | always stores the reading; Normal→Protected iff reading ≥ trigger, stamping the trigger time; Protected→Normal iff reading < resume, stamping the resume time; otherwise unchanged |
| Thermal.Invocations | src/monitoring/thermal_monitor.py:289-291 | one call per observer, in registration order, with the flag and the temperature |
| Thermal.ThermalMonitor.Init | src/monitoring/thermal_monitor.py:164-200 | a fresh state with the given thresholds, no observers, not simulating, no monitor handle |
| Thermal.ThermalMonitor.Create | src/monitoring/thermal_monitor.py:181-185 | construction fails exactly when resume ≥ trigger |
| Thermal.ThermalMonitor.CheckThermalProtection | src/monitoring/thermal_monitor.py:233-256 | a -1.0 reading changes nothing, not even the stored temperature; otherwise the hysteresis rule applies, and every observer is called once, in order, iff the flag flipped; failures are counted and the rest still run |
| Thermal.ThermalMonitor.RegisterCallback | src/monitoring/thermal_monitor.py:258-278 | appends an observer only if it is not already registered |
| Thermal.ThermalMonitor.NotifyCallbacks | src/monitoring/thermal_monitor.py:282-297 | calls every observer once in registration order; a throwing observer is counted and does not stop the rest |
| Thermal.ThermalMonitor.StartMonitoring | src/monitoring/thermal_monitor.py:299-319 | afterwards a handle is present; starting with one present does nothing |
| Thermal.ThermalMonitor.StopMonitoring | src/monitoring/thermal_monitor.py:321-335 | afterwards no handle is present; stopping with none does nothing |
| Thermal.ThermalMonitor.SetThresholds | src/monitoring/thermal_monitor.py:371-401 | omitted values keep their current ones; a pair without a gap is rejected and nothing changes; protection is not re-evaluated |
| Thermal.ThermalMonitor.SimulateTemperature | src/monitoring/thermal_monitor.py:403-419 | simulate mode is on, and every later reading is the simulated value |
| Thermal.ThermalMonitor.GetTemperature | src/monitoring/thermal_monitor.py:202-231 | in simulate mode the simulated value whatever the platform reads; otherwise the platform reading, which is an input (-1.0 when there is none) |
| Thermal.ThermalMonitor.MonitoringLoop | src/monitoring/thermal_monitor.py:337-360 | after a run of samples the flag is the hysteresis run over the temperatures seen; the observer calls made are exactly RunCalls over those temperatures (each flip calls every observer in order with the new flag and its temperature), and failures grow by flips × raising observers |
| Thermal.RunCallsCount | src/monitoring/thermal_monitor.py:282-297 | a run makes one call per observer per flip |
| Thermal.StaysProtectedSilently | src/monitoring/thermal_monitor.py:337-360 | once protected, a run of readings at or above resume (or missing) calls no observer |
| Validators.TypeIssues | code/security/validators.py:29-38 | no issue iff "type" is one of audio, text, control |
| Validators.DataIssues | code/security/validators.py:30 | no issue iff data is absent, None or an object |
| Validators.ParseMessage | code/security/validators.py:23-38 | the message parses iff its type and its data both pass; a parse failure always carries an issue |
| Validators.ParseText | code/security/validators.py:48-57 | a string of at most 5000 characters is accepted unchanged; anything else gives one issue on "text" |
| Validators.Prefix | code/security/validators.py:128 | s[:n] is the first min(n, length) characters |
| Validators.StructureErrors | code/security/validators.py:106-114 | one error per issue, in order, whose field is the dotted location |
| Validators.TextErrors | code/security/validators.py:122-130 | one error per issue under "data.", with the input cut to 100 characters |
| Validators.ValidateMessage | code/security/validators.py:84-132 | ok iff there are no errors iff the message is acceptable; a bad type is reported under "type"; structure errors are only under "type" or "data"; an over-long text gives exactly one "data.text" error |
| Validators.SameLengthSameVerdict | code/security/validators.py:56-81 | a text message's verdict depends only on its length, so injection phrases change nothing |
| Validators.UninspectedData | code/security/validators.py:117-120 | audio and control payloads, and messages without data, are accepted whatever they hold |
| Voices.ConfiguredDefaultVoice | src/audio_module.py:230-260 | no usable file gives en_US-lessac-medium; a legacy engine name is migrated through the map; otherwise an absent entry gives the default and a string entry that string; no voice (None) iff the entry is a non-string such as null and no migration applies |
| Voices.DisplayNameOfVoiceId | src/audio_module.py:328-351 | lang_REGION-name-quality becomes "<region> (<Name>)" |
| Voices.DisplayName | src/audio_module.py:328-351 | the result is either the id itself or a "<region> (<Name>)" form ending in ")"; the exact cases are DisplayNameOfPlainId, DisplayNameOfVoiceId and DisplayNameWithoutSpeaker |
| Voices.DisplayNameWithoutSpeaker | src/audio_module.py:332-350 | without a third part the speaker is "Voice" |
| Voices.DisplayNameOfPlainId | src/audio_module.py:331-351 | an id with no separator is returned as it is |
| Voices.CapitalizeExamples | src/audio_module.py:348 | lessac → Lessac, alan → Alan, voice → Voice |
| Voices.DisplayNameOfDefaultVoice | src/audio_module.py:328-351 | en_US-lessac-medium is "US English (Lessac)" |
| Voices.RegionNameExamples | src/audio_module.py:337-345 | en/GB → "British English", en/AU → "AU English", de/DE → "de-DE" |
| Voices.Quality | src/audio_module.py:295-300 | "low", "medium" or "high"; "medium" iff the id holds neither "-low" nor "-high" |
| Voices.QualityExamples | src/audio_module.py:296-300 | "-low" wins even when "-high" also appears |
| Voices.InferGender | src/audio_module.py:353-373 | as written: raises (None) iff the id names no known speaker and the speaker name is a non-string; otherwise male, female or neutral |
| Voices.InferGenderIntended | src/audio_module.py:353-373 | the corrected rule raises in exactly the same cases and otherwise yields male, female or neutral |
| Voices.InferGenderMisreadsFemale | src/audio_module.py:366-371 | as written, a speaker name containing "female" or "woman" reads as male unless the id names a female voice |
| Voices.InferGenderIntendedReadsSpeaker | src/audio_module.py:366-371 | the corrected rule reads a female speaker term as female and a male-only term as male |
| Voices.FemaleSpeakerExample | src/audio_module.py:366-371 | voice "x" with speaker "female": male as written, female as corrected |
| Voices.MakeProfile | src/audio_module.py:288-320 | fails (the voice is skipped) iff gender inference raises; otherwise the profile has the id, DisplayName of the id, the language code or "en-US", the as-written InferGender result, Quality of the id, and the configured sample rate or 22050 |
| Voices.LoadProfilesKeys | src/audio_module.py:275-322 | loading adds exactly the ids that yield a profile |
| Voices.RegisterFirst | src/audio_module.py:219 | the first voice in discovery order is the first discovered one that yields a profile |
| Voices.RegisterMembers | src/audio_module.py:275-322 | the discovery order lists exactly the old ids and the usable ids |
| Voices.RegisterNoDuplicates | src/audio_module.py:322 | no id is listed twice |
| Voices.PiperTTSEngine.constructor | src/audio_module.py:181-194 | no profiles, no current voice, nothing loaded |
| Voices.PiperTTSEngine.AddVoice | src/audio_module.py:322 | the profile is stored or replaced; a new id joins the end of the order |
| Voices.PiperTTSEngine.LoadVoice | src/audio_module.py:275-326 | a model that yields a profile (readable configuration, no error building it) gets that profile; any other changes nothing |
| Voices.PiperTTSEngine.LoadVoiceProfiles | src/audio_module.py:262-326 | registers exactly the usable models in first-discovery order |
| Voices.PiperTTSEngine.Initialize | src/audio_module.py:198-228 | without a model directory: that error, and profiles, order and current voice unchanged; otherwise the profiles and discovery order are those LoadProfiles and Register give for the discovered models, and it fails with no usable model (current voice kept) or selects the configured default voice if it is a string naming a loaded profile, else (a null default included) the first voice discovered |
| Voices.PiperTTSEngine.SetVoice | src/audio_module.py:549-559 | succeeds iff the voice is known; on rejection the current voice is unchanged |
| Voices.PiperTTSEngine.TargetVoice | src/audio_module.py:451 | `voice_id or current_voice_id`: a non-empty requested id wins; a missing or empty one falls back to the current voice |
| Voices.PiperTTSEngine.SynthesizeStreaming | src/audio_module.py:426-538 | a missing piper library is the first error (443-444), with nothing loaded; then an unknown target voice is an error with nothing loaded; a known voice not yet loaded whose model fails to load is a load error with nothing loaded (456-457, 536-538); otherwise the voice is loaded, and a sample rate of 0 with at least one piece is the zero-division error before any output; otherwise one output per piece with indexes 0, 1, 2, … and duration DurationMs (samples ÷ rate × 1000), then an empty final marker of duration 0 with index = piece count, iff there was a piece |
| Voices.DurationMs | src/audio_module.py:470-471 | the duration times the sample rate is 1000 × the number of whole 16-bit samples, and it is never negative |

## Left out

- Thread lifecycle is not modelled: the ManagedThread wrapper, the monitoring loop's sleep slicing and stop_monitoring's join. The monitor handle is just present or absent.
- The session manager's asyncio lock and its background cleanup task are not modelled. Each registry operation is atomic.
- Wall-clock time, `datetime` and `uuid4` are inputs. `now` is a parameter in seconds, and a new session id is any id not yet in use.
- The thermal sensor file read is an input. So are `src/metrics.py`, which is not part of this model, and the psutil figures, which arrive as byte counts. The Pi 5 metrics dictionary is not built.
- Logging is not modelled. Neither are the human-readable message texts and their float formatting: alerts and messages are datatype values.
- The RealtimeTTS engines of AudioProcessor are not modelled. Piper synthesis is an uninterpreted function that gives nothing where it raises. The AudioProcessor paths catch every exception, so which of the engine's errors was raised (missing library, unknown voice, failed model load) is not distinguished there. Model-file discovery, the JSON files and `hf_hub_download` are inputs (a list of discovered models with their parsed configuration).
- The first-chunk callback and its timing measurements are not modelled in either Piper delivery path.
- `put_nowait` on a full queue, which drops the chunk, is not modelled. The queue accepts every chunk.
- The FastAPI routes, JWT, slowapi and CORS are not modelled. The environment loading of `production/production_config.py` is an input (a `Config` value).
- Pydantic is not modelled: its error-message texts and its coercion of values. str() of a non-string input is represented as absent. The prompt-injection regexes only log, so they are left out.
- The monitoring scripts' HTTP, HTML and pytest-subprocess parts are not modelled.
- The test dashboard's `connect` is modelled as the list append only. `broadcast_update` and `update_system_metrics` are left out; they send and read system figures.
- Floats are not modelled bit for bit; the model uses exact arithmetic. The risk band divides exact reals. The readiness score rounds the exact quotient half to even, as Python's round() does on exact ties.
- Pi5.ResourceStatus: uses one temperature reading. The source reads the sensor up to three times and compares the message against a freshly formatted one.
- Health.CheckSystemResources: details are the list of alerts rather than their "; "-joined text.
- Production.ProductionWebSocketManager.ExpiredSessions: the order of the ids (dict iteration order) is not stated, only which ids are listed.
- Sessions.SessionManager.CleanupExpiredSessions: the deletion order is not stated, only the final map and the count.
- Bounded.Window: the contract states only the length. Which entries are kept is given by its definition, and Bounded.PushAllIsWindow proves it for repeated appends.
- Readiness.DeploymentChecklist: the contract states only the item count. The items are the fixed constant.
- Readiness.OptimizationRecommendations: the contract states only the count and independence from the input. The entries are the fixed constant.
- SecurityAudit.SecurityRecommendations: the contract states only the count and independence from the input. The entries are the fixed constant.
- Backoff.ExponentialBackoff.Create: the attempt limit is a natural number. A negative limit, which the source accepts and which gives up at once, is not represented.
- Backoff.ExponentialBackoff.DelaysUntilGiveUp: requires a limit. With unlimited attempts the documented loop never ends unless a connection succeeds.
- Errors.NewError, Errors.NewValidationError, Errors.WithFixedCode: require that the context holds no key naming one of the constructor's own parameters. Python binds such a keyword to the parameter, so it can never reach the context.
- Thermal.ThermalMonitor.RegisterCallback: observers are compared as values rather than by function identity.
- Text.Lower, Text.Capitalize: ASCII case mapping only. Python maps every Unicode letter, so e.g. 'É' → 'é', the Kelvin sign → 'k', 'İ' → "i̇" (two characters) and capitalize("ß") → "Ss" are not modelled; Voices.DisplayName and Voices.InferGender therefore match the source only on ASCII voice ids and speaker names. For instance, the model keeps "ÉMILE" unchanged where Python lowers it to "émile", and it capitalizes "élodie" as "élodie" where Python gives "Élodie".
- ConfiguredDefaultVoice, MakeProfile: configuration entries are strings or other scalars (null, numbers, booleans). A list- or object-valued 'engine', 'default_voice' or 'speaker_name' (which can make the lookup raise rather than compare), a non-object 'language' or 'audio' entry, a non-string language code and a non-integer sample rate are not represented. The sample rate is a `nat`: a negative integer `sample_rate`, which Python keeps and which then gives negative chunk durations, is not represented either.
- Sessions.SeedMessages: a seed entry's role and content are strings or absent. An entry holding an explicit null (or another non-string) is not represented; Python's `get` would keep that value instead of the default "user" or "".
- Voices.PiperTTSEngine.SynthesizeStreaming: the processing time of each output (a wall-clock difference) is not modelled, and durations use exact division rather than floats.
- Validators.ValidateMessage: the error messages are not modelled, only the field, the kind of error and the shown input.

## Findings

| source | as written | input that shows it | evidently intended | confidence | as-written member | corrected member |
|---|---|---|---|---|---|---|
| src/audio_module.py:366-371 | the speaker-name terms are checked male first with substring matching, so "female" matches "male" and "woman" matches "man" | voice id "x" with speaker_name "female" gives "male" (Voices.FemaleSpeakerExample) | a female speaker name reads as female | not executed | Voices.InferGenderMisreadsFemale | Voices.InferGenderIntendedReadsSpeaker |

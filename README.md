# Power detector: the debounced alarm monitor

A Dafny model of `monitor` in `powerdetector.py`: a loop that samples an ADC
voltage, raises an alarm after `alarmNTriggers` consecutive readings below the
minimum voltage, clears it after as many consecutive good readings, tells
every alarm handler (an e-mail sender and a buzzer) about the alarm, and sends
an informational heartbeat whenever the heartbeat deadline has passed.

The project has five modules, one file each:

- `Logging` — the numeric levels of Python's logging module (INFO 20, ERROR 40, CRITICAL 50, …).
- `AlarmHandlers` — the handler kinds, `getLoggingString` of the e-mail handler and the buzzer's severity gate.
- `AlarmMachine` — the state machine as a pure `Step` on a phase (state and `numberOfAlarmsLeftToTrigger`),
  its fold `Run` over a sequence of samples, and the streak lemmas. A sample is abstracted to a boolean
  `low` ("the scaled voltage is below `alarmMinVoltage`").
- `Monitoring` — the class `Monitor` with the loop's four variables, the dispatch log, the heartbeat
  rule and `Tick`, one iteration of the `while True` loop.
- `Launch` — the trigger count chosen by the entry point, with the finding below.

The central result is `AlarmMachine.RunTracksStreaks`: started in (OK, n) with n ≥ 1, after any
sequence of samples the counter lies in its range. In OK it equals n minus the number of trailing low
samples. In ALARM it equals the number of trailing good samples. The edge lemmas follow from it:
the alarm is raised exactly when a streak of n lows completes, and cleared exactly when a streak of n
good samples completes.

## Model

| member | source | states |
|---|---|---|
| AlarmHandlers.GetLoggingString | powerdetector.py:76-82 | the name of each of the six logging levels 0,10,20,30,40,50, and "NOTSET" for every other number |
| AlarmHandlers.LoggingStringIdentifiesLevel | powerdetector.py:76-82 | two named levels get the same name only if they are equal; among them only NOTSET is reported as "NOTSET" |
| AlarmHandlers.BuzzerGate | powerdetector.py:55 | the buzzer sounds for ERROR and CRITICAL, not for INFO, WARNING, DEBUG or NOTSET, and the gate is monotone in severity |
| AlarmHandlers.Trigger | powerdetector.py:54-101 | the e-mail handler always mails, with "Power detector event - <level name>" as subject; the buzzer sounds exactly when severity ≥ 40 and is silent otherwise |
| AlarmMachine.Step | powerdetector.py:129-156 | CRITICAL goes out exactly on the OK→ALARM edge; fast retry exactly after a low sample in OK; a state change always goes the way the sample points; the counter range is preserved for n ≥ 1 |
| AlarmMachine.StepOkLow | powerdetector.py:135-144 | in OK a low sample decrements the counter by 1 and forces the fast period; ALARM and CRITICAL exactly when the new counter is < 1 |
| AlarmMachine.StepOkHigh | powerdetector.py:145-147 | in OK a good sample re-arms the counter at n, stays OK, keeps the steady period, emits nothing |
| AlarmMachine.StepAlarmLow | powerdetector.py:149-151 | in ALARM a low sample resets the counter to 0 and stays ALARM, steady period, nothing emitted |
| AlarmMachine.StepAlarmHigh | powerdetector.py:152-156 | in ALARM a good sample increments the counter; OK exactly when it reaches n; the recovery is silent |
| AlarmMachine.Run | powerdetector.py:127-156 | feeding any sample sequence keeps the counter range for n ≥ 1 |
| AlarmMachine.RunTracksStreaks | powerdetector.py:115-156 | from (OK, n): counter in range; in OK it is n minus the trailing low streak, in ALARM the trailing good streak |
| AlarmMachine.AlarmEdgeIffStreak | powerdetector.py:134-144 | while OK fewer than n trailing lows exist, and the next step raises the alarm iff it completes n consecutive lows |
| AlarmMachine.RecoveryEdgeIffStreak | powerdetector.py:148-156 | while ALARM fewer than n trailing goods exist, and the next step returns to OK iff it completes n consecutive good samples |
| AlarmMachine.NoAlarmBeforeN | powerdetector.py:115-141 | from (OK, n) no sample sequence shorter than n raises the alarm; the counter is n minus the trailing low streak |
| AlarmMachine.EntryCountdown | powerdetector.py:134-141 | from OK with c allowed, k ≤ c consecutive lows leave c − k allowed, and the c-th one raises the alarm with counter 0 |
| AlarmMachine.AlarmAfterExactlyNLows | powerdetector.py:115-141 | from (OK, n), k ≤ n consecutive lows raise the alarm iff k = n |
| AlarmMachine.RecoveryCountup | powerdetector.py:148-156 | from ALARM with c seen, k more good samples give c + k, and reaching n returns to (OK, n) |
| AlarmMachine.OkAfterExactlyNHighs | powerdetector.py:148-156 | from (ALARM, 0), k ≤ n consecutive good samples return to OK iff k = n |
| AlarmMachine.StreakBreaks | powerdetector.py:145-151 | after any history, one good sample in OK gives (OK, n) and one low sample in ALARM gives (ALARM, 0) |
| AlarmMachine.ScenarioOneTrigger | powerdetector.py:134-156 | with n = 1 one low sample raises the alarm with CRITICAL and one good sample clears it silently |
| AlarmMachine.ScenarioThreeTriggers | powerdetector.py:134-147 | with n = 3, low, good, low, low leaves (OK, 1) and one more low raises the alarm |
| Monitoring.Fanout | powerdetector.py:108-109 | a handler loop makes one call per handler, in handler order, all with the same message and severity |
| Monitoring.FanoutReachesEachOnce | powerdetector.py:142-144 | a fan-out gives every handler exactly one notification of its severity and gives nobody else any |
| Monitoring.HeartbeatRule | powerdetector.py:159-162 | the heartbeat fires iff now > deadline (strict); unchanged deadline when it does not fire; for infoPeriod ≥ 0 the deadline never recedes and moves strictly forward on firing |
| Monitoring.HeartbeatDueOnePeriodLater | powerdetector.py:159-162 | after a heartbeat at `now`, the next one fires exactly at the first clock value past now + infoPeriod |
| Monitoring.Report | powerdetector.py:132-161 | the heartbeat reports the phase before the step, or the new phase when the alarm was raised |
| Monitoring.HeartbeatReportsPhase | powerdetector.py:132-161 | for a step from an in-range phase, the heartbeat status is (ALARM, 0) exactly on the step that raises the alarm, and the pre-step phase otherwise |
| Monitoring.TickDispatches | powerdetector.py:140-161 | one iteration's calls: n CRITICAL calls on the edge, then n INFO calls when the heartbeat fires; every CRITICAL call precedes every INFO call, each reaches a listed handler, and every INFO call carries the heartbeat report |
| Monitoring.TickReachesEachHandler | powerdetector.py:140-161 | in one iteration every handler gets exactly one CRITICAL on the OK→ALARM edge and none otherwise (ALARM→OK included), and exactly one INFO iff the heartbeat fires |
| Monitoring.BuzzerSoundsIffAlarmEdge | powerdetector.py:55 | in one iteration a buzzer handler gets a Siren effect iff the step raised the alarm (OK→ALARM); the INFO heartbeat never sounds it |
| Monitoring.Monitor.constructor | powerdetector.py:106-124 | INFO configuration notice to every handler; start in (OK, n), steady period, first heartbeat due at now + infoPeriod |
| Monitoring.Monitor.Broadcast | powerdetector.py:160-161 | appends one dispatch per handler, in order, to the log |
| Monitoring.Monitor.Tick | powerdetector.py:127-163 | sleeps the period chosen last time; new phase and period are those of `Step`; the log grows by the edge CRITICAL fan-out then the heartbeat INFO fan-out; deadline per `HeartbeatRule`; invariant kept |
| Monitoring.RunTicks | powerdetector.py:127-156 | after one iteration per sample, the monitor's phase is the one `Run` reaches from its phase before |
| Monitoring.AlarmOnNthLow | powerdetector.py:106-144 | a freshly started monitor is in (ALARM, 0) after n consecutive low samples |
| Monitoring.FastRetryThenSteady | powerdetector.py:128-138 | after a low sample in OK the next iteration sleeps the fast period, and after a following good sample the chosen period is steady again |
| Launch.ClampTriggers | powerdetector.py:180-182 | the clamped count is ≥ 1, equals --alarm_tri when that is ≥ 1, and is 1 otherwise |
| Launch.MonitorTriggersAsWritten | powerdetector.py:189 | the raw --alarm_tri handed to the monitor agrees with the clamp exactly when it is at least 1 |
| Launch.MonitorTriggers | powerdetector.py:180-189 | the count handed to the monitor is ≥ 1 and equals --alarm_tri when that is ≥ 1 |
| Launch.UnclampedTriggersLeaveRange | powerdetector.py:189 | with the raw --alarm_tri 0 the start is out of range and the first CRITICAL reports −1 alarms left |
| Launch.ClampedTriggersKeepRange | powerdetector.py:180-189 | with the clamped count every run keeps the counter in range |
| Launch.SmallTriggersFollowLastSample | powerdetector.py:115-156 | for any n ≤ 1 the state after a non-empty run is ALARM iff the last sample was low, as with n = 1 |

## Findings

| source | as written | input that shows it | evidently intended | confidence | as-written member | corrected member |
|---|---|---|---|---|---|---|
| powerdetector.py:180-189 | the clamp `alarmNTriggers` is computed but `monitor` is called with the raw `args.alarm_tri` | `--alarm_tri 0`: the counter starts at 0, outside 1..n, and the CRITICAL message reports −1 alarms left to trigger | pass the clamped count, which is at least 1 | not executed; the unused variable is certain, the visible effect is only on reported counters (`SmallTriggersFollowLastSample`: states are as with n = 1) | Launch.MonitorTriggersAsWritten, Launch.UnclampedTriggersLeaveRange | Launch.MonitorTriggers, Launch.ClampedTriggersKeepRange |

The monitor itself (`Monitoring.Monitor.constructor`) requires n ≥ 1, the corrected count.

## Left out

- Hardware: `wiringPiSetup`, `pinMode`, `analogRead` and the soft-tone calls are foreign I/O. The sample is the boolean `low`; the buzzer's effect is just `Siren` or `Silent`.
- Voltage arithmetic: the scale 1.8/1023 and the comparison with `alarmMinVoltage` are floating point. They are folded into `low`.
- Time: `time.sleep`, `time.time` and the buzzer's timed tone loop are not modelled. `Tick` takes the clock as `now` and returns the period it would sleep.
- Monitoring.Monitor.Tick: both clock reads of the heartbeat (test and new deadline) use the same `now`. The source reads the clock twice, so its deadline can be slightly later.
- SMTP: the session, STARTTLS, login and send are network I/O. So are the `From`/`To` headers, including the `To:` header that prints a Python list. `EMail` dispatches model only the subject line.
- The e-mail handler's `except` boundary and every logging call are left out. A dispatch is assumed never to fail.
- The text of the status and configuration messages is left out. A message keeps only its kind and the phase it reports. The heartbeat reuses the status formatted before the step, which is formatted again with the new phase only when the CRITICAL fan-out runs (`Monitoring.Report`).
- Argument parsing and `__main__` wiring are left out, except the trigger-count clamp in `Launch`.
- The base `AlarmHandler` class has no logic and refers to an undefined `log`, so it is left out.
- The `ALARMING_VOLTAGE` enumeration value is never assigned, so it is left out.
- The loop is infinite. The model gives one iteration (`Tick`) and, for the state machine, any finite prefix (`Run`).

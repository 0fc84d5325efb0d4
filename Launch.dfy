/** How the entry point chooses the trigger count that `monitor` runs with. */
module Launch {
  import opened AlarmMachine

  /** The clamp the entry point computes from --alarm_tri: counts below 1
      become 1, everything else is kept. */
  function ClampTriggers(alarmTri: int): (n: int)
    ensures n >= 1
    ensures alarmTri >= 1 ==> n == alarmTri
    ensures alarmTri < 1 ==> n == 1
  {
    if alarmTri > 1 then alarmTri else 1
  }

  /** The trigger count as the entry point actually passes it: the raw
      --alarm_tri, with the clamp above left unused. */
  function MonitorTriggersAsWritten(alarmTri: int): (n: int)
    ensures n == ClampTriggers(alarmTri) <==> alarmTri >= 1
  {
    alarmTri
  }

  /** The trigger count the entry point evidently means to pass: the clamp
      above, named as the corrected counterpart of the as-written count. */
  function MonitorTriggers(alarmTri: int): (n: int)
    ensures n >= 1 && (alarmTri >= 1 ==> n == alarmTri)
  {
    ClampTriggers(alarmTri)
  }

  /** With --alarm_tri 0 as written, the monitor starts outside the counter
      range, and the CRITICAL notification of the first low sample reports
      -1 alarms left to trigger. */
  lemma UnclampedTriggersLeaveRange()
    ensures var n := MonitorTriggersAsWritten(0);
      !Inv(Phase(OK, n), n) &&
      Step(Phase(OK, n), true, n) == StepResult(Phase(ALARM, -1), true, true)
  {
  }

  /** With the clamped count every run keeps the counter in range. */
  lemma ClampedTriggersKeepRange(alarmTri: int, s: seq<bool>)
    ensures var n := MonitorTriggers(alarmTri);
      Inv(Run(Phase(OK, n), s, n), n)
  {
  }

  /** For any count n <= 1 the state follows the last sample alone, just as
      with n == 1: the unused clamp changes the reported counter, not when
      the alarm is raised or cleared. */
  lemma {:induction false} SmallTriggersFollowLastSample(n: int, s: seq<bool>)
    requires n <= 1
    ensures var q := Run(Phase(OK, n), s, n);
      (q.state == OK ==> n <= q.counter <= 1) &&
      (q.state == ALARM ==> n - 1 <= q.counter <= 0) &&
      (s != [] ==> q.state == if s[|s| - 1] then ALARM else OK)
  {
    if s != [] {
      SmallTriggersFollowLastSample(n, s[..|s| - 1]);
    }
  }
}

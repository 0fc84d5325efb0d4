/** The monitor loop: one `Tick` per iteration of `monitor`, which feeds the
    sample to the alarm state machine, fans notifications out to every
    handler and keeps the heartbeat deadline.  Sleeping and reading the ADC
    are external; the sample arrives as "low" and the clock as `now`. */
module Monitoring {
  import opened Logging
  import opened AlarmHandlers
  import opened AlarmMachine

  /** The read period forced after a low sample while OK. */
  const FAST_RETRY_PERIOD: real := 1.0

  /** What a notification reports: the startup configuration, or a status
      line with the state and numberOfAlarmsLeftToTrigger. */
  datatype Message = Configuration | Status(phase: Phase)

  /** One call `handler.trigger(msg, severity)`, `to` indexing the handlers. */
  datatype Dispatch = Dispatch(to: int, msg: Message, severity: int)

  /** The calls made by a loop over `count` handlers, in handler order. */
  function Fanout(count: nat, msg: Message, severity: int): (ds: seq<Dispatch>)
    ensures |ds| == count
    ensures forall i :: 0 <= i < count ==> ds[i] == Dispatch(i, msg, severity)
  {
    seq(count, i => Dispatch(i, msg, severity))
  }

  /** The number of dispatches with that severity handler `to` received. */
  function Count(log: seq<Dispatch>, to: int, severity: int): (k: nat)
    ensures k <= |log|
    ensures k == 0 <==> forall j :: 0 <= j < |log| ==> log[j].to != to || log[j].severity != severity
    decreases |log|
  {
    if log == [] then 0
    else
      var last := log[|log| - 1];
      Count(log[..|log| - 1], to, severity) + if last.to == to && last.severity == severity then 1 else 0
  }

  lemma {:induction false} CountAppend(a: seq<Dispatch>, b: seq<Dispatch>, to: int, severity: int)
    ensures Count(a + b, to, severity) == Count(a, to, severity) + Count(b, to, severity)
    decreases |b|
  {
    if b != [] {
      var b' := b[..|b| - 1];
      assert (a + b)[..|a + b| - 1] == a + b';
      CountAppend(a, b', to, severity);
    } else {
      assert a + b == a;
    }
  }

  /** A fan-out reaches every handler exactly once and nobody else. */
  lemma {:induction false} FanoutReachesEachOnce(count: nat, msg: Message, severity: int, to: int)
    ensures Count(Fanout(count, msg, severity), to, severity) == if 0 <= to < count then 1 else 0
  {
    if count > 0 {
      assert Fanout(count, msg, severity)[..count - 1] == Fanout(count - 1, msg, severity);
      FanoutReachesEachOnce(count - 1, msg, severity, to);
    }
  }

  /** The heartbeat rule: fire when the clock has passed the deadline
      (strictly), and then move the deadline to now + infoPeriod. */
  datatype Heartbeat = Heartbeat(fire: bool, deadline: int)

  function HeartbeatRule(deadline: int, now: int, infoPeriod: int): (h: Heartbeat)
    ensures h.fire <==> now > deadline
    ensures !h.fire ==> h.deadline == deadline
    // the deadline never moves back, and moves strictly forward on firing
    ensures infoPeriod >= 0 ==> deadline <= h.deadline && (h.fire ==> deadline < h.deadline)
  {
    if now > deadline then Heartbeat(true, now + infoPeriod) else Heartbeat(false, deadline)
  }

  /** After a heartbeat at `now`, the next one fires on the first iteration
      whose clock is past now + infoPeriod, and not before. */
  lemma HeartbeatDueOnePeriodLater(deadline: int, now: int, later: int, infoPeriod: int)
    requires HeartbeatRule(deadline, now, infoPeriod).fire
    ensures HeartbeatRule(HeartbeatRule(deadline, now, infoPeriod).deadline, later, infoPeriod).fire
      <==> later > now + infoPeriod
  {
  }

  /** The status line an iteration reports in its heartbeat: formatted
      before the step, and formatted again with the new phase when the
      CRITICAL notification went out. */
  function Report(before: Phase, r: StepResult): (m: Message)
    ensures m.Status? && (m.phase == before || m.phase == r.next)
    ensures !r.critical ==> m.phase.state == before.state
  {
    if r.critical then Status(r.next) else Status(before)
  }

  /** The heartbeat reports the phase before the step, except on the step
      that raises the alarm, where it reports the new phase (ALARM, 0). */
  lemma HeartbeatReportsPhase(before: Phase, low: bool, n: int)
    requires n >= 1 && Inv(before, n)
    ensures Report(before, Step(before, low, n)) ==
      if before.state == OK && low && before.counter == 1 then Status(Phase(ALARM, 0)) else Status(before)
  {
  }

  /** The handler calls of one iteration, in order: the CRITICAL fan-out of
      the alarm edge, then the INFO heartbeat fan-out. */
  function TickDispatches(count: nat, before: Phase, r: StepResult, fire: bool): (ds: seq<Dispatch>)
    ensures |ds| == (if r.critical then count else 0) + (if fire then count else 0)
    // every CRITICAL call comes before every INFO call, and reaches a handler
    ensures forall j :: 0 <= j < |ds| ==>
      0 <= ds[j].to < count &&
      ds[j].severity == (if j < (if r.critical then count else 0) then CRITICAL else INFO)
    ensures forall j :: 0 <= j < |ds| && ds[j].severity == INFO ==> ds[j].msg == Report(before, r)
  {
    (if r.critical then Fanout(count, Status(r.next), CRITICAL) else []) +
    (if fire then Fanout(count, Report(before, r), INFO) else [])
  }

  /** Every handler receives exactly one CRITICAL notification on the step
      that raises the alarm and none on any other step (the return to OK
      included), and exactly one INFO notification when the heartbeat fires. */
  lemma TickReachesEachHandler(count: nat, before: Phase, low: bool, n: int, fire: bool, to: nat)
    requires to < count
    ensures var r := Step(before, low, n);
      var ds := TickDispatches(count, before, r, fire);
      Count(ds, to, CRITICAL) == (if before.state == OK && r.next.state == ALARM then 1 else 0) &&
      Count(ds, to, INFO) == (if fire then 1 else 0)
  {
    var r := Step(before, low, n);
    var crit := if r.critical then Fanout(count, Status(r.next), CRITICAL) else [];
    var info := if fire then Fanout(count, Report(before, r), INFO) else [];
    CountAppend(crit, info, to, CRITICAL);
    CountAppend(crit, info, to, INFO);
    FanoutReachesEachOnce(count, Status(r.next), CRITICAL, to);
    FanoutReachesEachOnce(count, Report(before, r), INFO, to);
  }

  /** In one iteration a buzzer handler sounds its siren iff the step
      raised the alarm: the CRITICAL call reaches it, and the heartbeat's
      INFO call never sounds it. */
  lemma BuzzerSoundsIffAlarmEdge(handlers: seq<Handler>, before: Phase, low: bool, n: int, fire: bool, b: int)
    requires 0 <= b < |handlers| && handlers[b] == Buzzer
    ensures var r := Step(before, low, n);
      var ds := TickDispatches(|handlers|, before, r, fire);
      (exists j :: 0 <= j < |ds| && ds[j].to == b && Trigger(handlers[ds[j].to], ds[j].severity) == Siren)
        <==> before.state == OK && r.next.state == ALARM
  {
    var r := Step(before, low, n);
    var ds := TickDispatches(|handlers|, before, r, fire);
    if r.critical {
      assert ds[b].to == b && ds[b].severity == CRITICAL;
      assert Trigger(handlers[ds[b].to], ds[b].severity) == Siren;
    }
  }

  /** The state of one running `monitor` call. */
  class Monitor {
    const handlers: seq<Handler>
    const readPeriodState: real     // the steady read period
    const alarmNTriggers: int       // n, the consecutive samples to trigger and to recover
    const infoPeriod: int

    var alarmState: AlarmState
    var alarmsLeft: int             // numberOfAlarmsLeftToTrigger
    var readPeriod: real
    var nextInfoTrigger: int
    var log: seq<Dispatch>          // every handler.trigger call so far, in order

    ghost predicate Valid()
      reads this
    {
      alarmNTriggers >= 1 &&
      Inv(Phase(alarmState, alarmsLeft), alarmNTriggers) &&
      (readPeriod == readPeriodState || readPeriod == FAST_RETRY_PERIOD) &&
      forall j :: 0 <= j < |log| ==> 0 <= log[j].to < |handlers|
    }

    function Current(): Phase
      reads this
    {
      Phase(alarmState, alarmsLeft)
    }

    /** The monitor's start-up: announce the configuration to every handler
        at INFO, then start in OK with the counter at n, the steady period
        and the first heartbeat due one period from now. */
    constructor (handlers: seq<Handler>, readPeriodState: real, alarmNTriggers: int, infoPeriod: int, now: int)
      requires alarmNTriggers >= 1
      ensures Valid()
      ensures this.handlers == handlers && this.readPeriodState == readPeriodState
      ensures this.alarmNTriggers == alarmNTriggers && this.infoPeriod == infoPeriod
      ensures Current() == Phase(OK, alarmNTriggers)
      ensures readPeriod == readPeriodState && nextInfoTrigger == now + infoPeriod
      ensures log == Fanout(|handlers|, Configuration, INFO)
    {
      this.handlers := handlers;
      this.readPeriodState := readPeriodState;
      this.alarmNTriggers := alarmNTriggers;
      this.infoPeriod := infoPeriod;
      alarmState := OK;
      alarmsLeft := alarmNTriggers;
      readPeriod := readPeriodState;
      nextInfoTrigger := now + infoPeriod;
      log := [];
      new;
      Broadcast(Configuration, INFO);
    }

    /** One `trigger` call per handler, in list order, each recorded in the log. */
    method Broadcast(msg: Message, severity: int)
      modifies this`log
      ensures log == old(log) + Fanout(|handlers|, msg, severity)
      ensures (forall j :: 0 <= j < |old(log)| ==> 0 <= old(log)[j].to < |handlers|) ==>
        forall j :: 0 <= j < |log| ==> 0 <= log[j].to < |handlers|
    {
      for i := 0 to |handlers|
        invariant log == old(log) + Fanout(i, msg, severity)
      {
        log := log + [Dispatch(i, msg, severity)];
      }
    }

    /** One iteration of the loop: sleep for the period chosen last time,
        take the sample, step the state machine, notify on the alarm edge and
        send the heartbeat when it is due. */
    method Tick(low: bool, now: int) returns (slept: real)
      requires Valid()
      modifies this
      ensures Valid()
      ensures slept == old(readPeriod)
      ensures Current() == Step(old(Current()), low, alarmNTriggers).next
      ensures readPeriod ==
        if Step(old(Current()), low, alarmNTriggers).fastRetry then FAST_RETRY_PERIOD else readPeriodState
      ensures nextInfoTrigger == HeartbeatRule(old(nextInfoTrigger), now, infoPeriod).deadline
      ensures log == old(log) + TickDispatches(|handlers|, old(Current()),
        Step(old(Current()), low, alarmNTriggers), HeartbeatRule(old(nextInfoTrigger), now, infoPeriod).fire)
    {
      slept := readPeriod;
      readPeriod := readPeriodState;
      var before := Current();
      var statusMsg := Status(before);
      var r := Step(before, low, alarmNTriggers);
      alarmState, alarmsLeft := r.next.state, r.next.counter;
      if r.fastRetry {
        readPeriod := FAST_RETRY_PERIOD;
      }
      ghost var logBefore := log;
      ghost var crit := if r.critical then Fanout(|handlers|, Status(r.next), CRITICAL) else [];
      ghost var hb := HeartbeatRule(nextInfoTrigger, now, infoPeriod);
      ghost var info := if hb.fire then Fanout(|handlers|, Report(before, r), INFO) else [];
      if r.critical {
        statusMsg := Status(Current());
        Broadcast(statusMsg, CRITICAL);
      }
      assert log == logBefore + crit;
      assert statusMsg == Report(before, r);
      if now > nextInfoTrigger {
        Broadcast(statusMsg, INFO);
        nextInfoTrigger := now + infoPeriod;
      }
      assert log == (logBefore + crit) + info;
      assert TickDispatches(|handlers|, before, r, hb.fire) == crit + info;
    }
  }

  /** A low sample in OK makes the next sleep the fast-retry period
      (`first` is the period chosen, `second` the one slept), and after a
      following good sample the chosen period is the steady one again. */
  method FastRetryThenSteady(m: Monitor, now: int) returns (first: real, second: real)
    requires m.Valid() && m.alarmState == OK
    modifies m
    ensures m.Valid()
    ensures first == FAST_RETRY_PERIOD && second == FAST_RETRY_PERIOD && m.readPeriod == m.readPeriodState
  {
    var _ := m.Tick(true, now);
    first := m.readPeriod;
    second := m.Tick(false, now);
  }

  /** Successive iterations of the loop follow `Run`: after one `Tick` per
      sample, the monitor is in the phase the state machine reaches from
      where it was. */
  method RunTicks(m: Monitor, samples: seq<bool>, times: seq<int>)
    requires m.Valid() && |times| == |samples|
    modifies m
    ensures m.Valid()
    ensures m.Current() == Run(old(m.Current()), samples, m.alarmNTriggers)
  {
    for i := 0 to |samples|
      invariant m.Valid()
      invariant m.Current() == Run(old(m.Current()), samples[..i], m.alarmNTriggers)
    {
      var _ := m.Tick(samples[i], times[i]);
      assert samples[..i + 1][..i] == samples[..i];
    }
    assert samples[..|samples|] == samples;
  }

  /** A freshly started monitor raises its alarm on the n-th consecutive low
      sample and not before. */
  method AlarmOnNthLow(handlers: seq<Handler>, readPeriodState: real, n: int, infoPeriod: int, now: int)
    returns (m: Monitor)
    requires n >= 1
    ensures m.Valid() && m.alarmNTriggers == n
    ensures m.Current() == Phase(ALARM, 0)
  {
    m := new Monitor(handlers, readPeriodState, n, infoPeriod, now);
    RunTicks(m, Repeat(true, n - 1), seq(n - 1, _ => now));
    AlarmAfterExactlyNLows(n, n - 1);
    EntryCountdown(n, n, n - 1);
    assert m.Current() == Phase(OK, 1);
    var _ := m.Tick(true, now);
  }
}

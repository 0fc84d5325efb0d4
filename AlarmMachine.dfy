/** The debounced alarm state machine at the heart of the monitor loop: one
    decision per sample, with the sample abstracted to "below the minimum
    voltage" (low) or not. */
module AlarmMachine {

  /** The states the monitor ever assigns (ALARMING_VOLTAGE is declared in
      the source enumeration but never used). */
  datatype AlarmState = OK | ALARM

  /** The state together with numberOfAlarmsLeftToTrigger. */
  datatype Phase = Phase(state: AlarmState, counter: int)

  /** The outcome of one sample: the new phase, whether the next read uses
      the fast-retry period, and whether a CRITICAL notification goes out. */
  datatype StepResult = StepResult(next: Phase, fastRetry: bool, critical: bool)

  /** The range the counter keeps for a trigger count n >= 1: in OK it counts
      the low samples still allowed, in ALARM the high samples seen so far. */
  predicate Inv(p: Phase, n: int)
  {
    match p.state
    case OK => 1 <= p.counter <= n
    case ALARM => 0 <= p.counter <= n - 1
  }

  /** One iteration of the monitor's decision logic for trigger count n. */
  function Step(p: Phase, low: bool, n: int): (r: StepResult)
    // CRITICAL is emitted on the OK -> ALARM edge and nowhere else
    ensures r.critical <==> p.state == OK && r.next.state == ALARM
    // the fast retry follows a low sample seen while OK, and nothing else
    ensures r.fastRetry <==> p.state == OK && low
    // a state change always goes the way the sample points
    ensures r.next.state != p.state ==> (low <==> p.state == OK)
    ensures n >= 1 && Inv(p, n) ==> Inv(r.next, n)
  {
    match p.state
    case OK =>
      if low then
        var c := p.counter - 1;
        if c < 1 then StepResult(Phase(ALARM, c), true, true)
        else StepResult(Phase(OK, c), true, false)
      else
        StepResult(Phase(OK, n), false, false)
    case ALARM =>
      if low then
        StepResult(Phase(ALARM, 0), false, false)
      else
        var c := p.counter + 1;
        StepResult(Phase(if c >= n then OK else ALARM, c), false, false)
  }

  /** In OK, a low sample uses up one allowed sample and asks for a fast
      retry; the alarm fires exactly when none is left. */
  lemma StepOkLow(c: int, n: int)
    ensures var r := Step(Phase(OK, c), true, n);
      r.next.counter == c - 1 && r.fastRetry &&
      (r.next.state == ALARM <==> c - 1 < 1) && (r.critical <==> c - 1 < 1)
  {
  }

  /** In OK, a good sample re-arms the counter and keeps the steady period. */
  lemma StepOkHigh(c: int, n: int)
    ensures Step(Phase(OK, c), false, n) == StepResult(Phase(OK, n), false, false)
  {
  }

  /** In ALARM, a low sample throws away all recovery progress. */
  lemma StepAlarmLow(c: int, n: int)
    ensures Step(Phase(ALARM, c), true, n) == StepResult(Phase(ALARM, 0), false, false)
  {
  }

  /** In ALARM, a good sample adds one to the recovery count, and the state
      returns to OK, silently, exactly when the count reaches n. */
  lemma StepAlarmHigh(c: int, n: int)
    ensures var r := Step(Phase(ALARM, c), false, n);
      r.next.counter == c + 1 && !r.fastRetry && !r.critical &&
      (r.next.state == OK <==> c + 1 >= n)
  {
  }

  /** The phase reached from `p` after feeding it `samples` in order. */
  function Run(p: Phase, samples: seq<bool>, n: int): (q: Phase)
    ensures n >= 1 && Inv(p, n) ==> Inv(q, n)
    decreases |samples|
  {
    if samples == [] then p
    else Step(Run(p, samples[..|samples| - 1], n), samples[|samples| - 1], n).next
  }

  /** The length of the longest suffix of `s` made of `v` only. */
  function Trailing(s: seq<bool>, v: bool): (k: nat)
    ensures k <= |s|
    ensures forall i :: |s| - k <= i < |s| ==> s[i] == v
    ensures k < |s| ==> s[|s| - 1 - k] != v
    decreases |s|
  {
    if s == [] || s[|s| - 1] != v then 0
    else Trailing(s[..|s| - 1], v) + 1
  }

  /** `k` copies of the sample `v`. */
  function Repeat(v: bool, k: nat): (s: seq<bool>)
    ensures |s| == k && forall i :: 0 <= i < k ==> s[i] == v
  {
    if k == 0 then [] else Repeat(v, k - 1) + [v]
  }

  /** The machine started in (OK, n) has no memory beyond the current
      streak: in OK the counter is n minus the number of trailing low
      samples, in ALARM it is the number of trailing good samples. */
  lemma {:induction false} RunTracksStreaks(n: int, s: seq<bool>)
    requires n >= 1
    ensures var q := Run(Phase(OK, n), s, n);
      Inv(q, n) &&
      (q.state == OK ==> q.counter == n - Trailing(s, true)) &&
      (q.state == ALARM ==> q.counter == Trailing(s, false))
  {
    if s != [] {
      var s' := s[..|s| - 1];
      RunTracksStreaks(n, s');
      assert s'[..|s'|] == s';
    }
  }

  /** While OK, a step raises the alarm exactly when it completes a streak
      of n consecutive low samples. */
  lemma AlarmEdgeIffStreak(n: int, s: seq<bool>, low: bool)
    requires n >= 1
    requires Run(Phase(OK, n), s, n).state == OK
    ensures Trailing(s, true) < n
    ensures Run(Phase(OK, n), s + [low], n).state == ALARM <==> Trailing(s + [low], true) == n
  {
    RunTracksStreaks(n, s);
    assert (s + [low])[..|s|] == s;
  }

  /** While ALARM, a step returns to OK exactly when it completes a streak
      of n consecutive good samples. */
  lemma RecoveryEdgeIffStreak(n: int, s: seq<bool>, low: bool)
    requires n >= 1
    requires Run(Phase(OK, n), s, n).state == ALARM
    ensures Trailing(s, false) < n
    ensures Run(Phase(OK, n), s + [low], n).state == OK <==> Trailing(s + [low], false) == n
  {
    RunTracksStreaks(n, s);
    assert (s + [low])[..|s|] == s;
  }

  /** No sample sequence shorter than n can raise the alarm from (OK, n). */
  lemma {:induction false} NoAlarmBeforeN(n: int, s: seq<bool>)
    requires n >= 1 && |s| < n
    ensures Run(Phase(OK, n), s, n) == Phase(OK, n - Trailing(s, true))
  {
    if s != [] {
      var s' := s[..|s| - 1];
      NoAlarmBeforeN(n, s');
      assert s'[..|s'|] == s';
    }
  }

  /** Counting down: from OK with c samples allowed, k <= c consecutive low
      samples leave c - k allowed, and the c-th raises the alarm. */
  lemma {:induction false} EntryCountdown(n: int, c: int, k: nat)
    requires 1 <= c && k <= c
    ensures Run(Phase(OK, c), Repeat(true, k), n) ==
      if k < c then Phase(OK, c - k) else Phase(ALARM, 0)
  {
    if k > 0 {
      EntryCountdown(n, c, k - 1);
      assert Repeat(true, k)[..k - 1] == Repeat(true, k - 1);
    }
  }

  /** From (OK, n) the alarm is raised by exactly n consecutive low samples
      and by no shorter run of them. */
  lemma AlarmAfterExactlyNLows(n: int, k: nat)
    requires n >= 1 && k <= n
    ensures Run(Phase(OK, n), Repeat(true, k), n).state == ALARM <==> k == n
  {
    EntryCountdown(n, n, k);
  }

  /** Counting up: from ALARM with c good samples seen, k more consecutive
      good samples give c + k, and reaching n returns to OK with the counter
      re-armed at n. */
  lemma {:induction false} RecoveryCountup(n: int, c: int, k: nat)
    requires 0 <= c < n && c + k <= n
    ensures Run(Phase(ALARM, c), Repeat(false, k), n) ==
      if c + k < n then Phase(ALARM, c + k) else Phase(OK, n)
  {
    if k > 0 {
      RecoveryCountup(n, c, k - 1);
      assert Repeat(false, k)[..k - 1] == Repeat(false, k - 1);
    }
  }

  /** From (ALARM, 0) exactly n consecutive good samples are needed to
      return to OK. */
  lemma OkAfterExactlyNHighs(n: int, k: nat)
    requires n >= 1 && k <= n
    ensures Run(Phase(ALARM, 0), Repeat(false, k), n).state == OK <==> k == n
  {
    RecoveryCountup(n, 0, k);
  }

  /** Whatever happened before, one good sample in OK re-arms the counter at
      n, and one low sample in ALARM resets recovery to 0. */
  lemma StreakBreaks(n: int, p: Phase, s: seq<bool>)
    ensures var q := Run(p, s, n);
      (q.state == OK ==> Run(p, s + [false], n) == Phase(OK, n)) &&
      (q.state == ALARM ==> Run(p, s + [true], n) == Phase(ALARM, 0))
  {
  }

  /** One trigger: a single low sample raises the alarm with one CRITICAL
      notification, and a single good sample clears it without any. */
  lemma ScenarioOneTrigger()
    ensures Step(Phase(OK, 1), true, 1) == StepResult(Phase(ALARM, 0), true, true)
    ensures Step(Phase(ALARM, 0), false, 1) == StepResult(Phase(OK, 1), false, false)
  {
  }

  /** Three triggers: low, good, low, low leaves one sample allowed
      (2, re-armed 3, 2, 1), and one more low raises the alarm. */
  lemma ScenarioThreeTriggers()
    ensures Run(Phase(OK, 3), [true, false, true, true], 3) == Phase(OK, 1)
    ensures Run(Phase(OK, 3), [true, false, true, true, true], 3).state == ALARM
  {
    assert [true, false, true, true, true][..4] == [true, false, true, true];
    assert [true, false, true, true][..3] == [true, false, true];
    assert [true, false, true][..2] == [true, false];
    assert [true, false][..1] == [true];
  }
}

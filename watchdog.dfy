/** One cycle of the safety watchdog as a step function over the driving
    mode, the error code and the two consecutive-failure counters, and what
    runs of cycles do. */
module Watchdog {
  import opened LincolnTypes

  /** kMaxFailAttempt */
  const MaxFailAttempt: nat := 10

  /** The modes in which the controller drives the steering unit: steering
      commands are accepted and the watchdog monitors the EPS. */
  predicate SteerAutomated(m: DrivingMode)
  {
    m == CompleteAutoDrive || m == AutoSteerOnly
  }

  /** The modes in which the controller drives brake, throttle and gear:
      those commands are accepted and the watchdog monitors VCU and ESP. */
  predicate SpeedAutomated(m: DrivingMode)
  {
    m == CompleteAutoDrive || m == AutoSpeedOnly
  }

  datatype DogState = DogState(mode: DrivingMode, errorCode: ChassisErrorCode, steerFail: nat, speedFail: nat)

  /** What one cycle observes: the two non-blocking readiness results and the
      chassis fault check. A readiness result is ignored in a mode that does
      not monitor that unit. */
  datatype CycleInput = CycleInput(steerReady: bool, speedReady: bool, chassisFault: bool)

  /** A counter grows on a monitored failure and restarts from zero otherwise. */
  function NextFail(fail: nat, monitored: bool, ready: bool): nat
  {
    if monitored && !ready then fail + 1 else 0
  }

  /** The cycle raises the emergency flag on a tripped counter or a chassis fault. */
  predicate Flagged(s: DogState, i: CycleInput)
  {
    NextFail(s.steerFail, SteerAutomated(s.mode), i.steerReady) >= MaxFailAttempt ||
    NextFail(s.speedFail, SpeedAutomated(s.mode), i.speedReady) >= MaxFailAttempt ||
    i.chassisFault
  }

  /** Emergency() runs when the cycle is flagged outside EMERGENCY_MODE. */
  predicate Demotes(s: DogState, i: CycleInput)
  {
    Flagged(s, i) && s.mode != EmergencyMode
  }

  function Cycle(s: DogState, i: CycleInput): DogState
  {
    var steer := NextFail(s.steerFail, SteerAutomated(s.mode), i.steerReady);
    var speed := NextFail(s.speedFail, SpeedAutomated(s.mode), i.speedReady);
    var afterCounters := if steer >= MaxFailAttempt || speed >= MaxFailAttempt then ManualIntervention else s.errorCode;
    var afterFaults := if i.chassisFault then ChassisError else afterCounters;
    if Demotes(s, i) then DogState(EmergencyMode, ChassisError, steer, speed)
    else DogState(s.mode, afterFaults, steer, speed)
  }

  /** Cycles run one after another. */
  function Run(s: DogState, inputs: seq<CycleInput>): DogState
    decreases |inputs|
  {
    if inputs == [] then s else Run(Cycle(s, inputs[0]), inputs[1..])
  }

  /** A demotion always ends in EMERGENCY_MODE with CHASSIS_ERROR: the
      MANUAL_INTERVENTION a tripped counter writes is overwritten. */
  lemma DemotionReportsChassisError(s: DogState, i: CycleInput)
    requires Demotes(s, i)
    ensures Cycle(s, i).mode == EmergencyMode && Cycle(s, i).errorCode == ChassisError
  {
  }

  /** A cycle changes the mode only by demoting it. */
  lemma CycleOnlyDemotes(s: DogState, i: CycleInput)
    ensures Cycle(s, i).mode == (if Demotes(s, i) then EmergencyMode else s.mode)
    ensures !Flagged(s, i) ==> Cycle(s, i).errorCode == s.errorCode
  {
  }

  lemma {:induction false} RunAppend(s: DogState, a: seq<CycleInput>, b: seq<CycleInput>)
    ensures Run(s, a + b) == Run(Run(s, a), b)
    decreases |a|
  {
    if a == [] {
      assert a + b == b;
    } else {
      assert (a + b)[1..] == a[1..] + b;
      RunAppend(Cycle(s, a[0]), a[1..], b);
    }
  }

  /** Once in EMERGENCY_MODE the watchdog keeps it there, with both counters at zero. */
  lemma {:induction false} EmergencyPersists(s: DogState, inputs: seq<CycleInput>)
    requires s.mode == EmergencyMode
    requires inputs != []
    ensures Run(s, inputs).mode == EmergencyMode
    ensures Run(s, inputs).steerFail == 0 && Run(s, inputs).speedFail == 0
    decreases |inputs|
  {
    var t := Cycle(s, inputs[0]);
    if inputs[1..] != [] {
      EmergencyPersists(t, inputs[1..]);
    }
  }

  /** Every cycle of the run sees the steering unit offline and no chassis fault. */
  predicate SteerFailing(inputs: seq<CycleInput>)
  {
    forall k :: 0 <= k < |inputs| ==> !inputs[k].steerReady && !inputs[k].chassisFault
  }

  /** Below the threshold, steering failures only count up: the mode and the
      error code stay. */
  lemma {:induction false} SteerFailuresAccumulate(s: DogState, inputs: seq<CycleInput>)
    requires SteerAutomated(s.mode) && SteerFailing(inputs)
    requires s.steerFail + |inputs| < MaxFailAttempt && s.speedFail + |inputs| < MaxFailAttempt
    ensures Run(s, inputs).mode == s.mode && Run(s, inputs).errorCode == s.errorCode
    ensures Run(s, inputs).steerFail == s.steerFail + |inputs|
    ensures Run(s, inputs).speedFail <= s.speedFail + |inputs|
    decreases |inputs|
  {
    if inputs != [] {
      var t := Cycle(s, inputs[0]);
      assert t.mode == s.mode && t.errorCode == s.errorCode;
      assert SteerFailing(inputs[1..]) by {
        forall k | 0 <= k < |inputs[1..]|
          ensures !inputs[1..][k].steerReady && !inputs[1..][k].chassisFault
        {
          assert inputs[1..][k] == inputs[k + 1];
        }
      }
      SteerFailuresAccumulate(t, inputs[1..]);
    }
  }

  /** Ten consecutive steering failures from fresh counters demote to
      EMERGENCY_MODE, reported as CHASSIS_ERROR. */
  lemma TenthSteerFailureDemotes(s: DogState, inputs: seq<CycleInput>)
    requires SteerAutomated(s.mode) && s.steerFail == 0 && s.speedFail == 0
    requires |inputs| == MaxFailAttempt && SteerFailing(inputs)
    ensures Run(s, inputs).mode == EmergencyMode && Run(s, inputs).errorCode == ChassisError
  {
    var first := inputs[..MaxFailAttempt - 1];
    var last := inputs[MaxFailAttempt - 1];
    assert inputs == first + [last];
    assert SteerFailing(first);
    RunAppend(s, first, [last]);
    SteerFailuresAccumulate(s, first);
    var t := Run(s, first);
    assert Run(t, [last]) == Cycle(t, last);
  }

  /** Nine steering failures followed by one good cycle leave AUTO_STEER_ONLY
      in place, with the steering counter back at zero. */
  lemma NineFailuresThenRecovery(s: DogState, inputs: seq<CycleInput>)
    requires s.mode == AutoSteerOnly && s.steerFail == 0 && s.speedFail == 0
    requires |inputs| == MaxFailAttempt && SteerFailing(inputs[..MaxFailAttempt - 1])
    requires inputs[MaxFailAttempt - 1].steerReady && !inputs[MaxFailAttempt - 1].chassisFault
    ensures Run(s, inputs).mode == AutoSteerOnly && Run(s, inputs).errorCode == s.errorCode
    ensures Run(s, inputs).steerFail == 0
  {
    var first := inputs[..MaxFailAttempt - 1];
    var last := inputs[MaxFailAttempt - 1];
    assert inputs == first + [last];
    RunAppend(s, first, [last]);
    SteerFailuresAccumulate(s, first);
    var t := Run(s, first);
    assert Run(t, [last]) == Cycle(t, last);
  }
}

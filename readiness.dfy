/** The readiness check behind CheckResponse: which online flags a request
    demands, and when a sequence of polls of the message manager answers it. */
module Readiness {
  import opened LincolnTypes

  const CHECK_RESPONSE_STEER_UNIT_FLAG: bv32 := 1
  const CHECK_RESPONSE_SPEED_UNIT_FLAG: bv32 := 2

  /** retry_num: the polls a waiting check may make. */
  const MaxRetries: nat := 20

  /** A flag of the check-response record counts only when the record is
      there, the flag is set, and it is true. */
  predicate EpsOnline(d: ChassisDetail)
  {
    d.checkResponse.Some? && d.checkResponse.value.isEpsOnline == Some(true)
  }

  predicate VcuOnline(d: ChassisDetail)
  {
    d.checkResponse.Some? && d.checkResponse.value.isVcuOnline == Some(true)
  }

  predicate EspOnline(d: ChassisDetail)
  {
    d.checkResponse.Some? && d.checkResponse.value.isEspOnline == Some(true)
  }

  /** check_ok of one poll: the steer bit demands the EPS, the speed bit
      demands both VCU and ESP. */
  predicate FlagsHold(flags: bv32, d: ChassisDetail)
  {
    (flags & CHECK_RESPONSE_STEER_UNIT_FLAG != 0 ==> EpsOnline(d)) &&
    (flags & CHECK_RESPONSE_SPEED_UNIT_FLAG != 0 ==> VcuOnline(d) && EspOnline(d))
  }

  /** A poll that fetched a snapshot in which the requested flags hold. */
  predicate Accepts(flags: bv32, p: Poll)
  {
    p.Fetched? && FlagsHold(flags, p.detail)
  }

  /** How many polls a check may make: one without waiting, retry_num with. */
  function PollBudget(needWait: bool): nat
  {
    if needWait then MaxRetries else 1
  }

  /** The check succeeds iff, within the budget, some poll accepts and every
      poll before it did fetch a snapshot. */
  ghost predicate ResponseAccepted(flags: bv32, needWait: bool, t: Telemetry)
  {
    exists i: nat :: i < PollBudget(needWait) && Accepts(flags, t(i)) &&
      forall j: nat :: j < i ==> t(j).Fetched?
  }

  lemma SteerFlagNeedsEps(d: ChassisDetail)
    ensures FlagsHold(CHECK_RESPONSE_STEER_UNIT_FLAG, d) <==> EpsOnline(d)
  {
  }

  lemma SpeedFlagNeedsVcuAndEsp(d: ChassisDetail)
    ensures FlagsHold(CHECK_RESPONSE_SPEED_UNIT_FLAG, d) <==> VcuOnline(d) && EspOnline(d)
  {
  }

  lemma BothFlagsNeedAllThree(d: ChassisDetail)
    ensures FlagsHold(CHECK_RESPONSE_STEER_UNIT_FLAG | CHECK_RESPONSE_SPEED_UNIT_FLAG, d) <==>
            EpsOnline(d) && VcuOnline(d) && EspOnline(d)
  {
  }

  /** Without a check-response record no unit is online, so any request that
      names a unit fails on that snapshot. */
  lemma AbsentRecordIsOffline(flags: bv32, d: ChassisDetail)
    requires d.checkResponse.None?
    requires flags & (CHECK_RESPONSE_STEER_UNIT_FLAG | CHECK_RESPONSE_SPEED_UNIT_FLAG) != 0
    ensures !FlagsHold(flags, d)
  {
  }

  /** A first fetch that fails fails the whole check, waiting or not. */
  lemma FailedFetchIsNotReady(flags: bv32, needWait: bool, t: Telemetry)
    requires t(0).FetchFailed?
    ensures !ResponseAccepted(flags, needWait, t)
  {
  }

  /** With no flags requested, the check succeeds exactly when the first fetch does. */
  lemma EmptyFlagsNeedOnlyAFetch(needWait: bool, t: Telemetry)
    ensures ResponseAccepted(0, needWait, t) <==> t(0).Fetched?
  {
    if t(0).Fetched? {
      assert Accepts(0, t(0));
      assert forall j: nat :: j < 0 ==> t(j).Fetched?;
    } else {
      FailedFetchIsNotReady(0, needWait, t);
    }
  }

  /** Waiting never turns a successful check into a failing one. */
  lemma WaitingOnlyHelps(flags: bv32, t: Telemetry)
    ensures ResponseAccepted(flags, false, t) ==> ResponseAccepted(flags, true, t)
  {
  }

  /** A check without waiting looks at the first snapshot only. */
  lemma NonBlockingLooksOnce(flags: bv32, t: Telemetry)
    ensures ResponseAccepted(flags, false, t) <==> Accepts(flags, t(0))
  {
    if Accepts(flags, t(0)) {
      assert forall j: nat :: j < 0 ==> t(j).Fetched?;
    }
  }
}

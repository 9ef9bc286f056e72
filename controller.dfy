/** LincolnController: the drive-by-wire state machine. Its fields are the
    controller's driving mode, error code and error mask, its initialisation
    state and collaborator bindings, the five outgoing frames it writes, the
    CAN sender's registration and transmission logs, and the two
    consecutive-failure counters the watchdog loop carries from cycle to
    cycle. */
module LincolnControl {
  import opened LincolnTypes
  import opened BitMask
  import opened Commands
  import opened Readiness
  import opened ChassisFaults
  import opened Projection
  import opened Watchdog

  const AllFrames: set<FrameId> := {Brake60, Throttle62, Steering64, Gear66, Turnsignal68}

  /** The AddMessage calls of a successful Init, in order, each with flag false. */
  const InitRegistrations: seq<Registration> :=
    [Registration(Brake60, false), Registration(Throttle62, false), Registration(Steering64, false),
     Registration(Gear66, false), Registration(Turnsignal68, false)]

  /** The fixed angular rate of the one-argument Steer. */
  const DefaultSteerRate: real := 200.0

  /** pct percent of whole: how a steering command in percent becomes degrees. */
  function PercentOf(whole: real, pct: real): real
  {
    whole * pct / 100.0
  }

  /** mask |= flag << cnt++ for flag cnt of the snapshot: ORs it in at the
      next free position, so the mask holds one more flag. */
  method ShiftIn(mask: nat, flag: bool, cnt: nat, ghost d: ChassisDetail) returns (mask': nat, cnt': nat)
    requires mask == MaskPrefix(d, cnt) && flag == FlagAt(d, cnt)
    ensures cnt' == cnt + 1 && mask' == MaskPrefix(d, cnt')
  {
    mask' := OrBit(mask, flag, cnt);
    cnt' := cnt + 1;
  }

  /** The EPS block: its five flags go to bits 0 to 4. */
  method ShiftInSteering(mask: nat, cnt: nat, eps: EpsReport, ghost d: ChassisDetail) returns (mask': nat, cnt': nat)
    requires cnt == 0 && mask == MaskPrefix(d, 0) && d.eps == Some(eps)
    ensures cnt' == 5 && mask' == MaskPrefix(d, 5)
  {
    mask', cnt' := ShiftIn(mask, eps.watchdogFault, cnt, d);
    mask', cnt' := ShiftIn(mask', eps.channel1Fault, cnt', d);
    mask', cnt' := ShiftIn(mask', eps.channel2Fault, cnt', d);
    mask', cnt' := ShiftIn(mask', eps.calibrationFault, cnt', d);
    mask', cnt' := ShiftIn(mask', eps.connectorFault, cnt', d);
  }

  /** The brake block: its five flags go to bits 5 to 9. */
  method ShiftInBrake(mask: nat, cnt: nat, brake: BrakeReport, ghost d: ChassisDetail) returns (mask': nat, cnt': nat)
    requires cnt == 5 && mask == MaskPrefix(d, 5) && d.brake == Some(brake)
    ensures cnt' == 10 && mask' == MaskPrefix(d, 10)
  {
    mask', cnt' := ShiftIn(mask, brake.watchdogFault, cnt, d);
    mask', cnt' := ShiftIn(mask', brake.channel1Fault, cnt', d);
    mask', cnt' := ShiftIn(mask', brake.channel2Fault, cnt', d);
    mask', cnt' := ShiftIn(mask', brake.booFault, cnt', d);
    mask', cnt' := ShiftIn(mask', brake.connectorFault, cnt', d);
  }

  /** The gas block: its four flags go to bits 10 to 13. */
  method ShiftInThrottle(mask: nat, cnt: nat, gas: GasReport, ghost d: ChassisDetail) returns (mask': nat, cnt': nat)
    requires cnt == 10 && mask == MaskPrefix(d, 10) && d.gas == Some(gas)
    ensures cnt' == 14 && mask' == MaskPrefix(d, 14)
  {
    mask', cnt' := ShiftIn(mask, gas.watchdogFault, cnt, d);
    mask', cnt' := ShiftIn(mask', gas.channel1Fault, cnt', d);
    mask', cnt' := ShiftIn(mask', gas.channel2Fault, cnt', d);
    mask', cnt' := ShiftIn(mask', gas.connectorFault, cnt', d);
  }

  /** The frames with the enable state of brake, throttle and steering set. */
  function WithEnables(f: Frames, brake: bool, throttle: bool, steering: bool): Frames
  {
    f.(brake := f.brake.(enabled := brake),
       throttle := f.throttle.(enabled := throttle),
       steering := f.steering.(enabled := steering))
  }

  /** What one watchdog cycle observes through its collaborators: the
      non-blocking steer and speed checks and the chassis fault check. */
  ghost function Observed(steerTelemetry: Telemetry, speedTelemetry: Telemetry, detail: ChassisDetail): CycleInput
  {
    CycleInput(ResponseAccepted(CHECK_RESPONSE_STEER_UNIT_FLAG, false, steerTelemetry),
               ResponseAccepted(CHECK_RESPONSE_SPEED_UNIT_FLAG, false, speedTelemetry),
               Escalates(detail))
  }

  class LincolnController {
    var mode: DrivingMode
    var errorCode: ChassisErrorCode
    var errorMask: int
    var isInitialized: bool
    var params: VehicleParams
    var hasCanSender: bool
    var hasMessageManager: bool
    /** The frames whose handle pointer is bound (non-null). */
    var handles: set<FrameId>
    /** AddMessage calls made on the CAN sender. */
    var registered: seq<Registration>
    /** The current state of the five outgoing frames. */
    var frames: Frames
    /** The frame states sent by each forced CanSender::Update. */
    var transmitted: seq<Frames>
    /** steer_ctrl_fail and speed_ctrl_fail of the watchdog loop. */
    var steerCtrlFail: nat
    var speedCtrlFail: nat
    /** The chassis_ member that chassis() fills. */
    var chassisOut: ChassisStatus

    /** The object invariant: an initialised controller holds every binding,
        and in COMPLETE_MANUAL or EMERGENCY_MODE the actuation frames are at
        their reset state. */
    ghost predicate Valid()
      reads this`isInitialized, this`handles, this`hasCanSender, this`hasMessageManager, this`params,
            this`mode, this`frames
    {
      Bound() && (mode == CompleteManual || mode == EmergencyMode ==> ActuationAtRest(frames))
    }

    /** An initialised controller holds every binding. */
    ghost predicate Bound()
      reads this`isInitialized, this`handles, this`hasCanSender, this`hasMessageManager, this`params
    {
      isInitialized ==> handles == AllFrames && hasCanSender && hasMessageManager && params.drivingMode.Some?
    }

    /** The part of the state one watchdog cycle reads and writes. */
    ghost function DogView(): DogState
      reads this`mode, this`errorCode, this`steerCtrlFail, this`speedCtrlFail
    {
      DogState(mode, errorCode, steerCtrlFail, speedCtrlFail)
    }

    /** A controller before Init; the header that gives these initial values
        is not part of this model. */
    constructor ()
      ensures Valid() && !isInitialized
      ensures mode == CompleteManual && errorCode == NoError && errorMask == 0
      ensures frames == DefaultFrames && handles == {} && registered == [] && transmitted == []
      ensures steerCtrlFail == 0 && speedCtrlFail == 0
    {
      mode := CompleteManual;
      errorCode := NoError;
      errorMask := 0;
      isInitialized := false;
      params := VehicleParams(None, 0.0, 0.0, 0.0);
      hasCanSender := false;
      hasMessageManager := false;
      handles := {};
      registered := [];
      frames := DefaultFrames;
      transmitted := [];
      steerCtrlFail := 0;
      speedCtrlFail := 0;
      chassisOut := ClearedChassis;
    }

    /** Init: refuses a second call, a configuration without driving_mode, a
        null CAN sender or message manager, and a missing frame handle;
        otherwise registers the five frames in order and marks the
        controller initialised. */
    method Init(p: VehicleParams, canSender: bool, messageManager: bool, available: set<FrameId>)
      returns (r: Status)
      requires Valid()
      modifies this`params, this`hasCanSender, this`hasMessageManager, this`handles, this`registered,
               this`isInitialized
      ensures Valid()
      ensures r == Ok <==>
              !old(isInitialized) && p.drivingMode.Some? && canSender && messageManager && AllFrames <= available
      ensures r == Ok ==> isInitialized && handles == AllFrames && registered == old(registered) + InitRegistrations
      ensures r != Ok ==> isInitialized == old(isInitialized) && registered == old(registered)
      ensures params == if old(isInitialized) then old(params) else p
      ensures hasCanSender == (old(hasCanSender) || (!old(isInitialized) && p.drivingMode.Some? && canSender))
      ensures hasMessageManager ==
              (old(hasMessageManager) || (!old(isInitialized) && p.drivingMode.Some? && canSender && messageManager))
      ensures forall id :: id in handles && id !in old(handles) ==> id in available
    {
      if isInitialized {
        return CanbusError;
      }
      params := p;
      if p.drivingMode.None? {
        return CanbusError;
      }
      if !canSender {
        return CanbusError;
      }
      hasCanSender := true;
      if !messageManager {
        return CanbusError;
      }
      hasMessageManager := true;

      var bound := BindHandles(available);
      if !bound {
        return CanbusError;
      }
      RegisterFrames();

      isInitialized := true;
      return Ok;
    }

    /** The five handle lookups of Init, in order; the first missing frame
        ends them. */
    method BindHandles(available: set<FrameId>) returns (ok: bool)
      modifies this`handles
      ensures ok <==> AllFrames <= available
      ensures ok ==> handles == AllFrames
      ensures forall id :: id in handles && id !in old(handles) ==> id in available
    {
      ok := LookUpHandle(Brake60, available);
      if !ok {
        return;
      }
      ok := LookUpHandle(Throttle62, available);
      if !ok {
        return;
      }
      ok := LookUpHandle(Steering64, available);
      if !ok {
        return;
      }
      ok := LookUpHandle(Gear66, available);
      if !ok {
        return;
      }
      ok := LookUpHandle(Turnsignal68, available);
      if !ok {
        return;
      }
      assert handles == AllFrames by {
        forall id: FrameId
          ensures id in handles <==> id in AllFrames
        {
          match id {
            case Brake60 =>
            case Throttle62 =>
            case Steering64 =>
            case Gear66 =>
            case Turnsignal68 =>
          }
        }
      }
    }

    /** The five AddMessage calls of Init, in frame order, each with flag false. */
    method RegisterFrames()
      modifies this`registered
      ensures registered == old(registered) + InitRegistrations
    {
      registered := registered + [Registration(Brake60, false)];
      registered := registered + [Registration(Throttle62, false)];
      registered := registered + [Registration(Steering64, false)];
      registered := registered + [Registration(Gear66, false)];
      registered := registered + [Registration(Turnsignal68, false)];
    }

    /** The handle of frame id is bound by looking it up in the message
        manager's protocol table; a missing frame leaves it null. */
    method LookUpHandle(id: FrameId, available: set<FrameId>) returns (bound: bool)
      modifies this`handles
      ensures bound == (id in available)
      ensures handles == if bound then old(handles) + {id} else old(handles) - {id}
    {
      if id in available {
        handles := handles + {id};
        return true;
      }
      handles := handles - {id};
      return false;
    }

    /** ResetProtocol: the message manager puts every outgoing frame back to its reset state. */
    method ResetProtocol()
      requires isInitialized && hasMessageManager
      modifies this`frames
      ensures frames == DefaultFrames
    {
      frames := DefaultFrames;
    }

    /** Emergency: EMERGENCY_MODE, frames reset, CHASSIS_ERROR, whatever the
        state before; so a second call changes nothing. */
    method Emergency()
      requires Bound() && isInitialized
      modifies this`mode, this`frames, this`errorCode
      ensures Valid()
      ensures mode == EmergencyMode && frames == DefaultFrames && errorCode == ChassisError
    {
      mode := EmergencyMode;
      ResetProtocol();
      SetChassisErrorCode(ChassisError);
    }

    /** EnableAutoMode: no-op in COMPLETE_AUTO_DRIVE; otherwise enables brake,
        throttle and steering, transmits, and waits for EPS, VCU and ESP. */
    method EnableAutoMode(telemetry: Telemetry) returns (r: Status)
      requires Valid() && isInitialized
      modifies this`mode, this`frames, this`errorCode, this`transmitted
      ensures Valid()
      ensures old(mode) == CompleteAutoDrive ==>
              r == Ok && mode == CompleteAutoDrive && frames == old(frames) &&
              errorCode == old(errorCode) && transmitted == old(transmitted)
      ensures old(mode) != CompleteAutoDrive ==>
              && transmitted == old(transmitted) + [WithEnables(old(frames), true, true, true)]
              && (r == Ok <==> ResponseAccepted(CHECK_RESPONSE_STEER_UNIT_FLAG | CHECK_RESPONSE_SPEED_UNIT_FLAG, true, telemetry))
              && (r == Ok ==> mode == CompleteAutoDrive && frames == WithEnables(old(frames), true, true, true) &&
                              errorCode == old(errorCode))
              && (r == CanbusError ==> mode == EmergencyMode && errorCode == ChassisError && frames == DefaultFrames)
    {
      if mode == CompleteAutoDrive {
        return Ok;
      }
      frames := WithEnables(frames, true, true, true);
      transmitted := transmitted + [frames];
      var ready, _ := CheckResponse(CHECK_RESPONSE_STEER_UNIT_FLAG | CHECK_RESPONSE_SPEED_UNIT_FLAG, true, telemetry);
      if !ready {
        Emergency();
        return CanbusError;
      }
      mode := CompleteAutoDrive;
      return Ok;
    }

    /** DisableAutoMode: frames reset and transmitted, COMPLETE_MANUAL,
        NO_ERROR, from any state. */
    method DisableAutoMode() returns (r: Status)
      requires Valid() && isInitialized
      modifies this`mode, this`frames, this`errorCode, this`transmitted
      ensures Valid()
      ensures r == Ok && mode == CompleteManual && errorCode == NoError && frames == DefaultFrames
      ensures transmitted == old(transmitted) + [DefaultFrames]
    {
      ResetProtocol();
      transmitted := transmitted + [frames];
      mode := CompleteManual;
      SetChassisErrorCode(NoError);
      return Ok;
    }

    /** EnableSteeringOnlyMode: from COMPLETE_AUTO_DRIVE or AUTO_STEER_ONLY it
        switches to AUTO_STEER_ONLY without touching the frames or checking;
        otherwise disables brake and throttle, enables steering, transmits
        and waits for the EPS. */
    method EnableSteeringOnlyMode(telemetry: Telemetry) returns (r: Status)
      requires Valid() && isInitialized
      modifies this`mode, this`frames, this`errorCode, this`transmitted
      ensures Valid()
      ensures old(mode) == CompleteAutoDrive || old(mode) == AutoSteerOnly ==>
              r == Ok && mode == AutoSteerOnly && frames == old(frames) &&
              errorCode == old(errorCode) && transmitted == old(transmitted)
      ensures !(old(mode) == CompleteAutoDrive || old(mode) == AutoSteerOnly) ==>
              && transmitted == old(transmitted) + [WithEnables(old(frames), false, false, true)]
              && (r == Ok <==> ResponseAccepted(CHECK_RESPONSE_STEER_UNIT_FLAG, true, telemetry))
              && (r == Ok ==> mode == AutoSteerOnly && frames == WithEnables(old(frames), false, false, true) &&
                              errorCode == old(errorCode))
              && (r == CanbusError ==> mode == EmergencyMode && errorCode == ChassisError && frames == DefaultFrames)
    {
      if mode == CompleteAutoDrive || mode == AutoSteerOnly {
        mode := AutoSteerOnly;
        return Ok;
      }
      frames := WithEnables(frames, false, false, true);
      transmitted := transmitted + [frames];
      var ready, _ := CheckResponse(CHECK_RESPONSE_STEER_UNIT_FLAG, true, telemetry);
      if !ready {
        Emergency();
        return CanbusError;
      }
      mode := AutoSteerOnly;
      return Ok;
    }

    /** EnableSpeedOnlyMode: from COMPLETE_AUTO_DRIVE or AUTO_SPEED_ONLY it
        switches to AUTO_SPEED_ONLY without touching the frames or checking;
        otherwise enables brake and throttle, disables steering, transmits
        and waits for VCU and ESP. */
    method EnableSpeedOnlyMode(telemetry: Telemetry) returns (r: Status)
      requires Valid() && isInitialized
      modifies this`mode, this`frames, this`errorCode, this`transmitted
      ensures Valid()
      ensures old(mode) == CompleteAutoDrive || old(mode) == AutoSpeedOnly ==>
              r == Ok && mode == AutoSpeedOnly && frames == old(frames) &&
              errorCode == old(errorCode) && transmitted == old(transmitted)
      ensures !(old(mode) == CompleteAutoDrive || old(mode) == AutoSpeedOnly) ==>
              && transmitted == old(transmitted) + [WithEnables(old(frames), true, true, false)]
              && (r == Ok <==> ResponseAccepted(CHECK_RESPONSE_SPEED_UNIT_FLAG, true, telemetry))
              && (r == Ok ==> mode == AutoSpeedOnly && frames == WithEnables(old(frames), true, true, false) &&
                              errorCode == old(errorCode))
              && (r == CanbusError ==> mode == EmergencyMode && errorCode == ChassisError && frames == DefaultFrames)
    {
      if mode == CompleteAutoDrive || mode == AutoSpeedOnly {
        mode := AutoSpeedOnly;
        return Ok;
      }
      frames := WithEnables(frames, true, true, false);
      transmitted := transmitted + [frames];
      var ready, _ := CheckResponse(CHECK_RESPONSE_SPEED_UNIT_FLAG, true, telemetry);
      if !ready {
        Emergency();
        return CanbusError;
      }
      mode := AutoSpeedOnly;
      return Ok;
    }

    /** Gear: only in COMPLETE_AUTO_DRIVE or AUTO_SPEED_ONLY, and then only the gear frame. */
    method Gear(position: GearPosition)
      requires Valid() && isInitialized
      modifies this`frames
      ensures Valid()
      ensures frames == if SpeedAutomated(mode) then old(frames).(gear := GearCommandOf(position)) else old(frames)
    {
      if !(mode == CompleteAutoDrive || mode == AutoSpeedOnly) {
        return;
      }
      frames := frames.(gear := GearCommandOf(position));
    }

    /** Brake: only in COMPLETE_AUTO_DRIVE or AUTO_SPEED_ONLY, and then only the brake pedal. */
    method Brake(pedal: real)
      requires Valid() && isInitialized
      modifies this`frames
      ensures Valid()
      ensures frames == if SpeedAutomated(mode) then old(frames).(brake := old(frames).brake.(pedal := pedal))
                        else old(frames)
    {
      if !(mode == CompleteAutoDrive || mode == AutoSpeedOnly) {
        return;
      }
      frames := frames.(brake := frames.brake.(pedal := pedal));
    }

    /** Throttle: only in COMPLETE_AUTO_DRIVE or AUTO_SPEED_ONLY, and then only the throttle pedal. */
    method Throttle(pedal: real)
      requires Valid() && isInitialized
      modifies this`frames
      ensures Valid()
      ensures frames == if SpeedAutomated(mode) then old(frames).(throttle := old(frames).throttle.(pedal := pedal))
                        else old(frames)
    {
      if !(mode == CompleteAutoDrive || mode == AutoSpeedOnly) {
        return;
      }
      frames := frames.(throttle := frames.throttle.(pedal := pedal));
    }

    /** Steer with the default rate: only in COMPLETE_AUTO_DRIVE or
        AUTO_STEER_ONLY; the angle is the percentage of max_steer_angle and
        the rate is 200. */
    method Steer(angle: real)
      requires Valid() && isInitialized
      modifies this`frames
      ensures Valid()
      ensures frames == if SteerAutomated(mode) then
                old(frames).(steering := old(frames).steering.(angle := PercentOf(params.maxSteerAngle, angle),
                                                                 rate := FixedRate(DefaultSteerRate)))
              else old(frames)
    {
      if !(mode == CompleteAutoDrive || mode == AutoSteerOnly) {
        return;
      }
      var realAngle := PercentOf(params.maxSteerAngle, angle);
      frames := frames.(steering := frames.steering.(angle := realAngle, rate := FixedRate(DefaultSteerRate)));
    }

    /** Steer with a requested rate: gated like Steer; the rate is the
        percentage of max_steer_angle_spd bounded by the configured limits. */
    method SteerWithSpeed(angle: real, angleSpd: real)
      requires Valid() && isInitialized
      modifies this`frames
      ensures Valid()
      ensures frames == if SteerAutomated(mode) then
                old(frames).(steering := old(frames).steering.(
                  angle := PercentOf(params.maxSteerAngle, angle),
                  rate := BoundedRate(params.minSteerAngleSpd, params.maxSteerAngleSpd,
                                      PercentOf(params.maxSteerAngleSpd, angleSpd))))
              else old(frames)
    {
      if !(mode == CompleteAutoDrive || mode == AutoSteerOnly) {
        return;
      }
      var realAngle := PercentOf(params.maxSteerAngle, angle);
      var realAngleSpd := BoundedRate(params.minSteerAngleSpd, params.maxSteerAngleSpd,
                                      PercentOf(params.maxSteerAngleSpd, angleSpd));
      frames := frames.(steering := frames.steering.(angle := realAngle, rate := realAngleSpd));
    }

    /** SetTurningSignal: in every mode, only the turn-signal frame. */
    method SetTurningSignal(signal: TurnSignal)
      requires Valid() && isInitialized
      modifies this`frames
      ensures Valid()
      ensures frames == old(frames).(turn := TurnCommandOf(signal))
    {
      frames := frames.(turn := TurnCommandOf(signal));
    }

    /** CheckResponse: polls until the requested units are online, at most
        once without waiting and at most retry_num times with; a failed
        fetch ends the check. Also returns how many polls it made. */
    method CheckResponse(flags: bv32, needWait: bool, telemetry: Telemetry) returns (ok: bool, polls: nat)
      requires hasMessageManager
      ensures 1 <= polls <= PollBudget(needWait)
      ensures ok <==> ResponseAccepted(flags, needWait, telemetry)
      ensures ok ==> Accepts(flags, telemetry(polls - 1))
      ensures forall j: nat :: j < polls - 1 ==> telemetry(j).Fetched? && !FlagsHold(flags, telemetry(j).detail)
      ensures !ok && polls < PollBudget(needWait) ==> telemetry(polls - 1).FetchFailed?
    {
      var retryNum: int := MaxRetries;
      var isEpsOnline := false;
      var isVcuOnline := false;
      var isEspOnline := false;
      polls := 0;
      while true
        invariant 0 < retryNum <= MaxRetries
        invariant polls == (if needWait then MaxRetries - retryNum else 0)
        invariant forall j: nat :: j < polls ==> telemetry(j).Fetched? && !FlagsHold(flags, telemetry(j).detail)
        decreases retryNum
      {
        var snapshot := telemetry(polls);
        polls := polls + 1;
        if snapshot.FetchFailed? {
          return false, polls;
        }
        var detail := snapshot.detail;
        var checkOk := true;
        if flags & CHECK_RESPONSE_STEER_UNIT_FLAG != 0 {
          isEpsOnline := EpsOnline(detail);
          checkOk := checkOk && isEpsOnline;
        }
        if flags & CHECK_RESPONSE_SPEED_UNIT_FLAG != 0 {
          isVcuOnline := VcuOnline(detail);
          isEspOnline := EspOnline(detail);
          checkOk := checkOk && isVcuOnline && isEspOnline;
        }
        if checkOk {
          return true, polls;
        }
        if needWait {
          retryNum := retryNum - 1;
        }
        if !(needWait && retryNum != 0) {
          break;
        }
      }
      return false, polls;
    }

    /** CheckChassisError: with the EPS, brake, gas and gear reports present it
        stores the 15-bit fault mask and reports whether a steering, brake or
        throttle fault is present; a missing report ends the check with no
        escalation and the stored mask unchanged. */
    method CheckChassisError(detail: ChassisDetail) returns (fault: bool)
      requires hasMessageManager
      modifies this`errorMask
      ensures fault == Escalates(detail)
      ensures if Complete(detail) then errorMask == MaskPrefix(detail, 15) && MaskOf(errorMask, FaultFlags(detail))
              else errorMask == old(errorMask)
    {
      var errorCnt: nat := 0;
      var chassisErrorMask: nat := 0;
      if detail.eps.None? {
        return false;
      }
      var eps := detail.eps.value;
      var steerFault := eps.watchdogFault || eps.channel1Fault || eps.channel2Fault ||
                        eps.calibrationFault || eps.connectorFault;
      chassisErrorMask, errorCnt := ShiftInSteering(chassisErrorMask, errorCnt, eps, detail);

      if detail.brake.None? {
        return false;
      }
      var brake := detail.brake.value;
      var brakeFault := brake.watchdogFault || brake.channel1Fault || brake.channel2Fault ||
                        brake.booFault || brake.connectorFault;
      chassisErrorMask, errorCnt := ShiftInBrake(chassisErrorMask, errorCnt, brake, detail);

      if detail.gas.None? {
        return false;
      }
      var gas := detail.gas.value;
      var throttleFault := gas.watchdogFault || gas.channel1Fault || gas.channel2Fault || gas.connectorFault;
      chassisErrorMask, errorCnt := ShiftInThrottle(chassisErrorMask, errorCnt, gas, detail);

      if detail.gear.None? {
        return false;
      }
      var gearFault := detail.gear.value.canbusFault;
      chassisErrorMask, errorCnt := ShiftIn(chassisErrorMask, gearFault, errorCnt, detail);
      StoredMaskIsMaskOf(detail);

      SetChassisErrorMask(chassisErrorMask);
      fault := steerFault || brakeFault || throttleFault;
    }

    /** Step 1 of the watchdog loop: in a steering mode a failed non-blocking
        EPS check counts one more failure, anything else restarts the count;
        reaching kMaxFailAttempt writes MANUAL_INTERVENTION and raises the
        emergency flag. */
    method SteerControlCheck(sampled: DrivingMode, telemetry: Telemetry) returns (trip: bool)
      requires hasMessageManager
      modifies this`steerCtrlFail, this`errorCode
      ensures steerCtrlFail ==
              NextFail(old(steerCtrlFail), SteerAutomated(sampled),
                       ResponseAccepted(CHECK_RESPONSE_STEER_UNIT_FLAG, false, telemetry))
      ensures trip == (steerCtrlFail >= MaxFailAttempt)
      ensures errorCode == if trip then ManualIntervention else old(errorCode)
    {
      trip := false;
      var ready := false;
      if sampled == CompleteAutoDrive || sampled == AutoSteerOnly {
        var polls;
        ready, polls := CheckResponse(CHECK_RESPONSE_STEER_UNIT_FLAG, false, telemetry);
      }
      if (sampled == CompleteAutoDrive || sampled == AutoSteerOnly) && !ready {
        steerCtrlFail := steerCtrlFail + 1;
        if steerCtrlFail >= MaxFailAttempt {
          trip := true;
          SetChassisErrorCode(ManualIntervention);
        }
      } else {
        steerCtrlFail := 0;
      }
    }

    /** Step 2 of the watchdog loop: the same for the speed units, VCU and
        ESP, in a speed mode. */
    method SpeedControlCheck(sampled: DrivingMode, telemetry: Telemetry) returns (trip: bool)
      requires hasMessageManager
      modifies this`speedCtrlFail, this`errorCode
      ensures speedCtrlFail ==
              NextFail(old(speedCtrlFail), SpeedAutomated(sampled),
                       ResponseAccepted(CHECK_RESPONSE_SPEED_UNIT_FLAG, false, telemetry))
      ensures trip == (speedCtrlFail >= MaxFailAttempt)
      ensures errorCode == if trip then ManualIntervention else old(errorCode)
    {
      trip := false;
      var ready := false;
      if sampled == CompleteAutoDrive || sampled == AutoSpeedOnly {
        var polls;
        ready, polls := CheckResponse(CHECK_RESPONSE_SPEED_UNIT_FLAG, false, telemetry);
      }
      if (sampled == CompleteAutoDrive || sampled == AutoSpeedOnly) && !ready {
        speedCtrlFail := speedCtrlFail + 1;
        if speedCtrlFail >= MaxFailAttempt {
          trip := true;
          SetChassisErrorCode(ManualIntervention);
        }
      } else {
        speedCtrlFail := 0;
      }
    }

    /** One pass of the SecurityDogThreadFunc loop, for the mode sampled at
        its start: update the two failure counters, run the chassis fault
        check, and demote when flagged outside EMERGENCY_MODE. */
    method SecurityDogCycle(steerTelemetry: Telemetry, speedTelemetry: Telemetry, detail: ChassisDetail)
      requires Valid() && isInitialized
      modifies this`mode, this`frames, this`errorCode, this`errorMask, this`steerCtrlFail, this`speedCtrlFail
      ensures Valid()
      ensures DogView() == Cycle(old(DogView()), Observed(steerTelemetry, speedTelemetry, detail))
      ensures frames == if Demotes(old(DogView()), Observed(steerTelemetry, speedTelemetry, detail))
                        then DefaultFrames else old(frames)
      ensures if Complete(detail) then MaskOf(errorMask, FaultFlags(detail)) else errorMask == old(errorMask)
    {
      ghost var before := DogView();
      ghost var seen := Observed(steerTelemetry, speedTelemetry, detail);
      ghost var after := Cycle(before, seen);
      var sampled := mode;
      var emergency := false;

      var steerTrip := SteerControlCheck(sampled, steerTelemetry);
      emergency := emergency || steerTrip;
      var speedTrip := SpeedControlCheck(sampled, speedTelemetry);
      emergency := emergency || speedTrip;
      assert steerCtrlFail == after.steerFail && speedCtrlFail == after.speedFail;

      var chassisFault := CheckChassisError(detail);
      if chassisFault {
        SetChassisErrorCode(ChassisError);
        emergency := true;
      }
      assert emergency == Flagged(before, seen);
      assert errorCode == if seen.chassisFault then ChassisError
                          else if steerTrip || speedTrip then ManualIntervention else before.errorCode;

      if emergency && sampled != EmergencyMode {
        Emergency();
      }
      assert DogView() == after;
    }

    /** chassis(): clears the error code while in EMERGENCY_MODE, then fills
        the status record field by field from the snapshot. */
    method Chassis(detail: ChassisDetail) returns (c: ChassisStatus)
      requires hasMessageManager
      modifies this`errorCode, this`chassisOut
      ensures errorCode == if mode == EmergencyMode then NoError else old(errorCode)
      ensures c == chassisOut
      ensures c == ProjectChassis(detail, mode, errorCode, errorMask, params.maxSteerAngle)
      ensures mode == EmergencyMode ==> c.errorCode == NoError
    {
      chassisOut := ClearedChassis;
      if mode == EmergencyMode {
        SetChassisErrorCode(NoError);
      }
      chassisOut := chassisOut.(drivingMode := mode);
      var code := GetChassisErrorCode();
      chassisOut := chassisOut.(errorCode := code);
      chassisOut := chassisOut.(engineStarted := true);
      chassisOut := chassisOut.(engineRpm := EngineRpm(detail));
      chassisOut := chassisOut.(speedMps := SpeedMps(detail));
      chassisOut := chassisOut.(odometerM := 0.0);
      chassisOut := chassisOut.(fuelRangeM := 0.0);
      chassisOut := chassisOut.(throttlePercentage := ThrottlePercentage(detail));
      chassisOut := chassisOut.(brakePercentage := BrakePercentage(detail));
      chassisOut := chassisOut.(gearLocation := GearLocation(detail));
      chassisOut := chassisOut.(steeringPercentage := SteeringPercentageOf(detail, params.maxSteerAngle));
      chassisOut := chassisOut.(steeringTorqueNm := SteeringTorque(detail));
      chassisOut := chassisOut.(parkingBrake := ParkingBrake(detail));
      chassisOut := chassisOut.(turnSignal := TurnSignalOf(detail.light));
      chassisOut := chassisOut.(horn := Horn(detail));
      if errorMask != 0 {
        chassisOut := chassisOut.(chassisErrorMask := Some(errorMask));
      }
      c := chassisOut;
    }

    method SetChassisErrorMask(mask: int)
      modifies this`errorMask
      ensures errorMask == mask
    {
      errorMask := mask;
    }

    method GetChassisErrorMask() returns (mask: int)
      ensures mask == errorMask
    {
      mask := errorMask;
    }

    method GetChassisErrorCode() returns (code: ChassisErrorCode)
      ensures code == errorCode
    {
      code := errorCode;
    }

    method SetChassisErrorCode(code: ChassisErrorCode)
      modifies this`errorCode
      ensures errorCode == code
    {
      errorCode := code;
    }
  }
}

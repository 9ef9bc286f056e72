/** The per-field presence checks of chassis(): each reported field takes the
    telemetry value when the sub-report and the field are there, and a safe
    default otherwise. */
module Projection {
  import opened LincolnTypes
  import Commands
  import ChassisFaults

  function EngineRpm(d: ChassisDetail): real
  {
    if d.ems.Some? && d.ems.value.engineRpm.Some? then d.ems.value.engineRpm.value else 0.0
  }

  function SpeedMps(d: ChassisDetail): real
  {
    if d.vehicleSpd.Some? && d.vehicleSpd.value.vehicleSpd.Some? then d.vehicleSpd.value.vehicleSpd.value else 0.0
  }

  function ThrottlePercentage(d: ChassisDetail): real
  {
    if d.gas.Some? && d.gas.value.throttleOutput.Some? then d.gas.value.throttleOutput.value else 0.0
  }

  function BrakePercentage(d: ChassisDetail): real
  {
    if d.brake.Some? && d.brake.value.brakeOutput.Some? then d.brake.value.brakeOutput.value else 0.0
  }

  function GearLocation(d: ChassisDetail): GearPosition
  {
    if d.gear.Some? && d.gear.value.gearState.Some? then d.gear.value.gearState.value else GearNone
  }

  function SteeringPercentageOf(d: ChassisDetail, maxSteerAngle: real): SteeringPercentage
  {
    if d.eps.Some? && d.eps.value.steeringAngle.Some? then SteeringScaled(d.eps.value.steeringAngle.value, maxSteerAngle)
    else SteeringZero
  }

  function SteeringTorque(d: ChassisDetail): real
  {
    if d.eps.Some? && d.eps.value.epasTorque.Some? then d.eps.value.epasTorque.value else 0.0
  }

  /** The parking-brake test guards on the EPS report but reads the EPB
      report, so it is kept exactly that way. */
  function ParkingBrake(d: ChassisDetail): bool
  {
    if d.eps.Some? && d.epb.Some? && d.epb.value.parkingBrakeStatus.Some? then
      d.epb.value.parkingBrakeStatus.value == PBrakeOn
    else
      false
  }

  function TurnSignalOf(light: Option<LightReport>): TurnSignal
  {
    if light.Some? && light.value.turnLightType.Some? && light.value.turnLightType.value != TurnLightOff then
      if light.value.turnLightType.value == TurnLeftOn then TurnLeft
      else if light.value.turnLightType.value == TurnRightOn then TurnRight
      else TurnNone
    else
      TurnNone
  }

  function Horn(d: ChassisDetail): bool
  {
    d.light.Some? && d.light.value.isHornOn.Some? && d.light.value.isHornOn.value
  }

  /** The whole reported status, for a mode, an error code and a mask already read. */
  function ProjectChassis(d: ChassisDetail, mode: DrivingMode, code: ChassisErrorCode, mask: int, maxSteerAngle: real)
    : ChassisStatus
  {
    ChassisStatus(
      mode, code, true, EngineRpm(d), SpeedMps(d), 0.0, 0.0,
      ThrottlePercentage(d), BrakePercentage(d), GearLocation(d),
      SteeringPercentageOf(d, maxSteerAngle), SteeringTorque(d), ParkingBrake(d),
      TurnSignalOf(d.light), Horn(d),
      if mask != 0 then Some(mask) else None)
  }

  /** Each absent sub-report or field projects to its safe default. */
  lemma AbsentFieldsProjectDefaults(d: ChassisDetail, mode: DrivingMode, code: ChassisErrorCode, mask: int, maxSteerAngle: real)
    ensures var c := ProjectChassis(d, mode, code, mask, maxSteerAngle);
      && (d.ems.None? || d.ems.value.engineRpm.None? ==> c.engineRpm == 0.0)
      && (d.vehicleSpd.None? || d.vehicleSpd.value.vehicleSpd.None? ==> c.speedMps == 0.0)
      && (d.gas.None? || d.gas.value.throttleOutput.None? ==> c.throttlePercentage == 0.0)
      && (d.brake.None? || d.brake.value.brakeOutput.None? ==> c.brakePercentage == 0.0)
      && (d.gear.None? || d.gear.value.gearState.None? ==> c.gearLocation == GearNone)
      && (d.eps.None? || d.eps.value.steeringAngle.None? ==> c.steeringPercentage == SteeringZero)
      && (d.eps.None? || d.eps.value.epasTorque.None? ==> c.steeringTorqueNm == 0.0)
      && (d.eps.None? || d.epb.None? ==> !c.parkingBrake)
      && (d.light.None? ==> c.turnSignal == TurnNone && !c.horn)
      && c.odometerM == 0.0 && c.fuelRangeM == 0.0 && c.engineStarted
  {
  }

  /** Present fields are reported unchanged. */
  lemma PresentFieldsProjectAsIs(d: ChassisDetail, mode: DrivingMode, code: ChassisErrorCode, mask: int, maxSteerAngle: real)
    ensures var c := ProjectChassis(d, mode, code, mask, maxSteerAngle);
      && (d.ems.Some? && d.ems.value.engineRpm.Some? ==> c.engineRpm == d.ems.value.engineRpm.value)
      && (d.vehicleSpd.Some? && d.vehicleSpd.value.vehicleSpd.Some? ==> c.speedMps == d.vehicleSpd.value.vehicleSpd.value)
      && (d.gas.Some? && d.gas.value.throttleOutput.Some? ==> c.throttlePercentage == d.gas.value.throttleOutput.value)
      && (d.brake.Some? && d.brake.value.brakeOutput.Some? ==> c.brakePercentage == d.brake.value.brakeOutput.value)
      && (d.gear.Some? && d.gear.value.gearState.Some? ==> c.gearLocation == d.gear.value.gearState.value)
      && (d.eps.Some? && d.eps.value.epasTorque.Some? ==> c.steeringTorqueNm == d.eps.value.epasTorque.value)
      && (c.horn <==> d.light.Some? && d.light.value.isHornOn == Some(true))
      && c.drivingMode == mode && c.errorCode == code
  {
  }

  /** Parking brake: reported on only with an EPS report present and the EPB
      report saying PBRAKE_ON. An EPB report alone is ignored. */
  lemma ParkingBrakeNeedsEps(d: ChassisDetail)
    ensures ParkingBrake(d) <==> d.eps.Some? && d.epb.Some? && d.epb.value.parkingBrakeStatus == Some(PBrakeOn)
    ensures d.eps.None? ==> !ParkingBrake(d)
  {
  }

  /** The reported turn signal names the lamp the light report says is on:
      left for TURN_LEFT_ON, right for TURN_RIGHT_ON, none otherwise. Fed back
      through SetTurningSignal, it lights the same lamp. */
  lemma TurnSignalFollowsLight(light: Option<LightReport>)
    ensures TurnSignalOf(light) == TurnLeft <==> light.Some? && light.value.turnLightType == Some(TurnLeftOn)
    ensures TurnSignalOf(light) == TurnRight <==> light.Some? && light.value.turnLightType == Some(TurnRightOn)
    ensures !(light.Some? && light.value.turnLightType in {Some(TurnLeftOn), Some(TurnRightOn)}) ==>
            TurnSignalOf(light) == TurnNone
    ensures Commands.TurnCommandOf(TurnSignalOf(light)) ==
      if light.Some? && light.value.turnLightType == Some(TurnLeftOn) then CmdTurnLeft
      else if light.Some? && light.value.turnLightType == Some(TurnRightOn) then CmdTurnRight
      else CmdTurnNone
  {
  }

  /** With a stored mask built by the fault check, the status carries a mask
      exactly when some fault flag was set. */
  lemma MaskReportedIffFault(d: ChassisDetail, f: ChassisDetail, mode: DrivingMode, code: ChassisErrorCode,
                             mask: int, maxSteerAngle: real)
    requires ChassisFaults.Complete(f) && ChassisFaults.MaskOf(mask, ChassisFaults.FaultFlags(f))
    ensures ProjectChassis(d, mode, code, mask, maxSteerAngle).chassisErrorMask.Some? <==>
            exists k :: 0 <= k < 15 && ChassisFaults.FaultFlags(f)[k]
    ensures ProjectChassis(d, mode, code, mask, maxSteerAngle).chassisErrorMask.Some? ==>
            ProjectChassis(d, mode, code, mask, maxSteerAngle).chassisErrorMask.value == mask
  {
    ChassisFaults.MaskZeroIffNoFlag(mask, ChassisFaults.FaultFlags(f));
  }
}

/** Data model of the Lincoln drive-by-wire controller: the enums it switches
    on, the telemetry snapshot it reads, the outgoing frame state it writes and
    the status record it reports. */
module LincolnTypes {

  datatype Option<T> = None | Some(value: T)

  /** Chassis::DrivingMode */
  datatype DrivingMode =
    | CompleteManual
    | CompleteAutoDrive
    | AutoSteerOnly
    | AutoSpeedOnly
    | EmergencyMode

  /** The Chassis::ErrorCode values the controller stores. */
  datatype ChassisErrorCode = NoError | ChassisError | ManualIntervention

  /** common::ErrorCode as returned by Init and the mode transitions. */
  datatype Status = Ok | CanbusError

  /** Chassis::GearPosition; GearUnlisted stands for an enum value outside
      the listed ones, which the gear switch sends to its default branch. */
  datatype GearPosition =
    | GearNeutral
    | GearDrive
    | GearReverse
    | GearParking
    | GearLow
    | GearNone
    | GearInvalid
    | GearUnlisted(code: int)

  /** VehicleSignal::TurnSignal, with room for values the controller does not name. */
  datatype TurnSignal = TurnNone | TurnLeft | TurnRight | TurnUnlisted(code: int)

  /** Light::TurnLightType as decoded from the bus. */
  datatype TurnLightType = TurnLightOff | TurnLeftOn | TurnRightOn | TurnLightUnlisted(code: int)

  /** Epb parking-brake status; only PBRAKE_ON is distinguished. */
  datatype ParkingBrakeStatus = PBrakeOn | PBrakeOther(code: int)

  // ---------------------------------------------------------------------------
  // Telemetry snapshot (ChassisDetail). Every sub-report and every optional
  // field may be absent; fault flags read as false when not set.

  datatype EmsReport = EmsReport(engineRpm: Option<real>)
  datatype SpeedReport = SpeedReport(vehicleSpd: Option<real>)
  datatype GasReport = GasReport(
    watchdogFault: bool, channel1Fault: bool, channel2Fault: bool, connectorFault: bool,
    throttleOutput: Option<real>)
  datatype BrakeReport = BrakeReport(
    watchdogFault: bool, channel1Fault: bool, channel2Fault: bool, booFault: bool, connectorFault: bool,
    brakeOutput: Option<real>)
  datatype GearReport = GearReport(canbusFault: bool, gearState: Option<GearPosition>)
  datatype EpsReport = EpsReport(
    watchdogFault: bool, channel1Fault: bool, channel2Fault: bool, calibrationFault: bool, connectorFault: bool,
    steeringAngle: Option<real>, epasTorque: Option<real>)
  datatype EpbReport = EpbReport(parkingBrakeStatus: Option<ParkingBrakeStatus>)
  datatype LightReport = LightReport(turnLightType: Option<TurnLightType>, isHornOn: Option<bool>)
  datatype CheckResponseReport = CheckResponseReport(
    isEpsOnline: Option<bool>, isVcuOnline: Option<bool>, isEspOnline: Option<bool>)

  datatype ChassisDetail = ChassisDetail(
    ems: Option<EmsReport>,
    vehicleSpd: Option<SpeedReport>,
    gas: Option<GasReport>,
    brake: Option<BrakeReport>,
    gear: Option<GearReport>,
    eps: Option<EpsReport>,
    epb: Option<EpbReport>,
    light: Option<LightReport>,
    checkResponse: Option<CheckResponseReport>)

  /** One call of the message manager's GetChassisDetail: either it fails, or
      it delivers a snapshot. */
  datatype Poll = FetchFailed | Fetched(detail: ChassisDetail)

  /** The answers the message manager gives to successive fetches, from now on. */
  type Telemetry = nat -> Poll

  // ---------------------------------------------------------------------------
  // Outgoing frames (Brake60, Throttle62, Steering64, Gear66, Turnsignal68)

  datatype FrameId = Brake60 | Throttle62 | Steering64 | Gear66 | Turnsignal68

  /** One AddMessage call on the CAN sender: the frame and its boolean flag. */
  datatype Registration = Registration(id: FrameId, flag: bool)

  /** The steering rate request: a fixed rate, or the rate handed to
      ProtocolData::BoundedValue(lower, upper, requested), whose result is not
      interpreted here. */
  datatype SteerRate = FixedRate(degPerSec: real) | BoundedRate(lower: real, upper: real, requested: real)

  datatype BrakeFrame = BrakeFrame(enabled: bool, pedal: real)
  datatype ThrottleFrame = ThrottleFrame(enabled: bool, pedal: real)
  datatype SteeringFrame = SteeringFrame(enabled: bool, angle: real, rate: SteerRate)
  datatype GearCommand = CmdNeutral | CmdReverse | CmdDrive | CmdPark | CmdLow | CmdNoGear
  datatype TurnCommand = CmdTurnNone | CmdTurnLeft | CmdTurnRight

  datatype Frames = Frames(
    brake: BrakeFrame,
    throttle: ThrottleFrame,
    steering: SteeringFrame,
    gear: GearCommand,
    turn: TurnCommand)

  /** The state the message manager's ResetSendMessages leaves the five
      outgoing frames in: disabled, zero requests, no gear, no turn signal. */
  const DefaultFrames: Frames :=
    Frames(BrakeFrame(false, 0.0), ThrottleFrame(false, 0.0),
           SteeringFrame(false, 0.0, FixedRate(0.0)), CmdNoGear, CmdTurnNone)

  /** The actuation frames (everything but the turn signal) are at their reset state. */
  predicate ActuationAtRest(f: Frames)
  {
    f.brake == DefaultFrames.brake && f.throttle == DefaultFrames.throttle &&
    f.steering == DefaultFrames.steering && f.gear == DefaultFrames.gear
  }

  /** VehicleParameter: has_driving_mode is modelled by Option. */
  datatype VehicleParams = VehicleParams(
    drivingMode: Option<DrivingMode>,
    maxSteerAngle: real,
    minSteerAngleSpd: real,
    maxSteerAngleSpd: real)

  // ---------------------------------------------------------------------------
  // Reported status (Chassis)

  /** steering_percentage: zero, or the floating-point quotient
      angle * 100.0 / maxSteerAngle, kept symbolic. */
  datatype SteeringPercentage = SteeringZero | SteeringScaled(angle: real, maxSteerAngle: real)

  datatype ChassisStatus = ChassisStatus(
    drivingMode: DrivingMode,
    errorCode: ChassisErrorCode,
    engineStarted: bool,
    engineRpm: real,
    speedMps: real,
    odometerM: real,
    fuelRangeM: real,
    throttlePercentage: real,
    brakePercentage: real,
    gearLocation: GearPosition,
    steeringPercentage: SteeringPercentage,
    steeringTorqueNm: real,
    parkingBrake: bool,
    turnSignal: TurnSignal,
    horn: bool,
    chassisErrorMask: Option<int>)

  /** What Chassis::Clear leaves, as far as chassis() can observe it: no
      error mask. Every other field is overwritten before the record is
      returned, so its placeholder value here is immaterial. */
  const ClearedChassis: ChassisStatus :=
    ChassisStatus(CompleteManual, NoError, false, 0.0, 0.0, 0.0, 0.0, 0.0, 0.0,
                  GearNone, SteeringZero, 0.0, false, TurnNone, false, None)
}

# Lincoln drive-by-wire controller

A Dafny model of `LincolnController`, the Apollo canbus controller for the
Lincoln MKZ, with proofs about it. The controller is a small state machine
with these parts:
- the driving mode (COMPLETE_MANUAL, COMPLETE_AUTO_DRIVE, AUTO_STEER_ONLY,
  AUTO_SPEED_ONLY, EMERGENCY_MODE);
- a chassis error code and a chassis error mask;
- five outgoing CAN frames: Brake60, Throttle62, Steering64, Gear66 and
  Turnsignal68;
- a safety watchdog that demotes the vehicle to EMERGENCY_MODE when a unit
  stops answering or reports a fault.

Modules:

- `LincolnTypes` (types.dfy): driving modes, error codes, the chassis-detail
  snapshot with every optional sub-report and field as an `Option`, the
  outgoing frame state, the vehicle parameters and the reported chassis
  status.
- `BitMask` (bitmask.dfy): compute the `mask |= flag << k` step on a
  non-negative integer, and read bit k of the result.
- `Commands` (commands.dfy): the gear switch of `Gear` and the turn-signal
  chain of `SetTurningSignal`, as pure functions.
- `Readiness` (readiness.dfy): the flag test of `CheckResponse`, and when a
  sequence of polls answers a request (`ResponseAccepted`).
- `ChassisFaults` (faults.dfy): which fault flag sits at which bit of the
  error mask, and when the fault check escalates.
- `Projection` (projection.dfy): the per-field presence and default rules of
  `chassis()`.
- `Watchdog` (watchdog.dfy): one watchdog cycle as a pure step function,
  `Cycle`, over the mode, the error code and the two failure counters, plus
  lemmas about runs of cycles.
- `LincolnControl` (controller.dfy): the class `LincolnController`.
  - Its fields hold the mode, the error code, the mask, the initialisation
    state, the collaborator bindings, the frame state, logs of frame
    registrations and forced transmissions, and the two watchdog counters.
  - Each operation of the source is a method with `modifies` on exactly the
    fields it writes.
  - The `CheckResponse` do-while is a `while` loop with invariants.
  - One pass of the `SecurityDogThreadFunc` loop is `SecurityDogCycle`, proved
    to step the class state exactly as `Watchdog.Cycle` does.

The collaborators become inputs:
- The message manager's answers to successive `GetChassisDetail` calls are a
  `Telemetry` (a function from poll number to a fetch failure or a snapshot).
  The fault check and `chassis()` take the snapshot as a parameter.
- Each frame handle lookup is a set `available` of the frames the protocol
  table holds.
- The CAN sender is a log of `AddMessage` registrations and of the frame
  states sent by each forced `Update`.
- `ResetSendMessages` puts every frame back to `DefaultFrames`.

### Behaviour of the code worth knowing

- A watchdog demotion ends with CHASSIS_ERROR. A tripped counter first
  writes MANUAL_INTERVENTION (lines 644 and 657), and `Emergency()` then
  overwrites it with CHASSIS_ERROR (line 263). See
  `Watchdog.DemotionReportsChassisError` and
  `Watchdog.TenthSteerFailureDemotes`.
- The error mask has 15 flag bits, 0 to 14, from 15 shifts (lines 511-573):
  five EPS, five brake, four gas, one gear.
- `chassis()` writes the stored error code: in EMERGENCY_MODE it clears it to
  NO_ERROR (line 151). So every status reported while in EMERGENCY_MODE
  carries NO_ERROR.
- `EnableAutoMode` returns early only from COMPLETE_AUTO_DRIVE (line 267).
- `EnableSteeringOnlyMode` and `EnableSpeedOnlyMode` return early from
  COMPLETE_AUTO_DRIVE or their own mode (lines 299-304 and 322-327). They
  then set the target mode and leave the frames alone, so a switch from
  COMPLETE_AUTO_DRIVE to AUTO_STEER_ONLY leaves brake and throttle enabled.
- A failed `Init` leaves `is_initialized_` as it was (lines 48-104). After a
  refused second call the controller stays initialised.
- The parking-brake field tests for the EPS report but reads the EPB report
  (line 210). `Projection.ParkingBrake` keeps that.

## Model

| member | source | states |
|---|---|---|
| LincolnControl.LincolnController.Init | modules/canbus/vehicle/lincoln/lincoln_controller.cc:46-117 | Returns OK exactly when not yet initialised, driving_mode is set, both collaborators are non-null and all five frames are in the protocol table. On OK, all five handles are bound, exactly Brake60, Throttle62, Steering64, Gear66, Turnsignal68 are registered in that order with flag false, and the controller is initialised. On failure, the initialised flag and the registrations are unchanged. The parameters and bindings record how far the guards got. |
| LincolnControl.LincolnController.BindHandles | modules/canbus/vehicle/lincoln/lincoln_controller.cc:72-104 | The five handle lookups, in order: succeed exactly when every frame is available, and then bind all five. Only available frames become bound. |
| LincolnControl.LincolnController.RegisterFrames | modules/canbus/vehicle/lincoln/lincoln_controller.cc:106-110 | Appends the five AddMessage registrations in frame order, each with flag false. |
| LincolnControl.LincolnController.LookUpHandle | modules/canbus/vehicle/lincoln/lincoln_controller.cc:72-77 | A handle is bound exactly when its frame is in the protocol table. |
| LincolnControl.LincolnController.Emergency | modules/canbus/vehicle/lincoln/lincoln_controller.cc:260-264 | Leaves EMERGENCY_MODE, CHASSIS_ERROR and reset frames. The new state does not depend on the old one, so a second call changes nothing. |
| LincolnControl.LincolnController.ResetProtocol | modules/canbus/vehicle/lincoln/lincoln_controller.cc:489-491 | Every outgoing frame returns to its reset state. |
| LincolnControl.LincolnController.EnableAutoMode | modules/canbus/vehicle/lincoln/lincoln_controller.cc:266-287 | From COMPLETE_AUTO_DRIVE: OK, with nothing changed and nothing transmitted. Otherwise it enables all three actuators and transmits once. It returns OK exactly when the blocking check for EPS, VCU and ESP succeeds, and then the mode is COMPLETE_AUTO_DRIVE. On failure: EMERGENCY_MODE, CHASSIS_ERROR, reset frames, CANBUS_ERROR. The object invariant is kept. |
| LincolnControl.LincolnController.DisableAutoMode | modules/canbus/vehicle/lincoln/lincoln_controller.cc:289-296 | From any state: reset frames are transmitted, the mode is COMPLETE_MANUAL, the code is NO_ERROR, and it returns OK. |
| LincolnControl.LincolnController.EnableSteeringOnlyMode | modules/canbus/vehicle/lincoln/lincoln_controller.cc:298-319 | From COMPLETE_AUTO_DRIVE or AUTO_STEER_ONLY: AUTO_STEER_ONLY, with the frames untouched and no check. Otherwise it disables brake and throttle, enables steering and transmits. It returns OK exactly when the blocking EPS check succeeds. On failure it demotes to EMERGENCY_MODE with CHASSIS_ERROR. |
| LincolnControl.LincolnController.EnableSpeedOnlyMode | modules/canbus/vehicle/lincoln/lincoln_controller.cc:321-342 | From COMPLETE_AUTO_DRIVE or AUTO_SPEED_ONLY: AUTO_SPEED_ONLY, with the frames untouched and no check. Otherwise it enables brake and throttle, disables steering and transmits. It returns OK exactly when the blocking VCU and ESP check succeeds. On failure it demotes to EMERGENCY_MODE with CHASSIS_ERROR. |
| LincolnControl.LincolnController.Gear | modules/canbus/vehicle/lincoln/lincoln_controller.cc:345-392 | In COMPLETE_AUTO_DRIVE or AUTO_SPEED_ONLY only the gear frame changes, to the gear switch's command. In every other mode no frame changes. |
| LincolnControl.LincolnController.Brake | modules/canbus/vehicle/lincoln/lincoln_controller.cc:399-406 | In COMPLETE_AUTO_DRIVE or AUTO_SPEED_ONLY only the brake pedal changes. Otherwise nothing changes. |
| LincolnControl.LincolnController.Throttle | modules/canbus/vehicle/lincoln/lincoln_controller.cc:410-417 | In COMPLETE_AUTO_DRIVE or AUTO_SPEED_ONLY only the throttle pedal changes. Otherwise nothing changes. |
| LincolnControl.LincolnController.Steer | modules/canbus/vehicle/lincoln/lincoln_controller.cc:423-432 | In COMPLETE_AUTO_DRIVE or AUTO_STEER_ONLY only the steering angle and rate change: the angle is the percentage of max_steer_angle and the rate is always 200. Otherwise nothing changes. |
| LincolnControl.LincolnController.SteerWithSpeed | modules/canbus/vehicle/lincoln/lincoln_controller.cc:437-449 | Gated like Steer. The rate is the requested percentage of max_steer_angle_spd, bounded by the configured minimum and maximum (recorded, not evaluated). |
| LincolnControl.LincolnController.SetTurningSignal | modules/canbus/vehicle/lincoln/lincoln_controller.cc:477-487 | In every mode only the turn-signal frame changes, to the chain's command. |
| LincolnControl.LincolnController.CheckResponse | modules/canbus/vehicle/lincoln/lincoln_controller.cc:686-733 | Succeeds exactly when some poll within the budget (1 without waiting, 20 with) accepts, and every earlier poll fetched a snapshot. It makes between 1 and the budget polls. On success the last poll accepted and every earlier one fetched without the flags holding. A failure before the budget ran out was a failed fetch. |
| LincolnControl.LincolnController.CheckChassisError | modules/canbus/vehicle/lincoln/lincoln_controller.cc:493-613 | Escalates exactly when the EPS, brake, gas and gear reports are present and some steering, brake or throttle fault is set. With all four present: the stored mask is the 15-flag mask, with bit k set exactly when fault flag k is. With one missing: the stored mask is unchanged. |
| LincolnControl.ShiftIn | modules/canbus/vehicle/lincoln/lincoln_controller.cc:511-512 | One `mask \|= flag << cnt++` step: the mask holds one more flag and the counter advances by one. |
| LincolnControl.ShiftInSteering | modules/canbus/vehicle/lincoln/lincoln_controller.cc:511-520 | The five EPS flags go to bits 0 to 4. |
| LincolnControl.ShiftInBrake | modules/canbus/vehicle/lincoln/lincoln_controller.cc:534-542 | The five brake flags go to bits 5 to 9. |
| LincolnControl.ShiftInThrottle | modules/canbus/vehicle/lincoln/lincoln_controller.cc:555-562 | The four gas flags go to bits 10 to 13. |
| LincolnControl.LincolnController.SteerControlCheck | modules/canbus/vehicle/lincoln/lincoln_controller.cc:637-648 | In COMPLETE_AUTO_DRIVE or AUTO_STEER_ONLY, with the non-blocking EPS check failing, the steering counter grows by one. Otherwise it restarts at 0. Reaching 10 writes MANUAL_INTERVENTION and raises the emergency flag. Nothing else changes the code. |
| LincolnControl.LincolnController.SpeedControlCheck | modules/canbus/vehicle/lincoln/lincoln_controller.cc:650-661 | The same rule for the speed counter, in COMPLETE_AUTO_DRIVE or AUTO_SPEED_ONLY, with the non-blocking VCU and ESP check. |
| LincolnControl.LincolnController.SecurityDogCycle | modules/canbus/vehicle/lincoln/lincoln_controller.cc:633-669 | The mode, error code and counters after one pass equal `Watchdog.Cycle` of those before, for what the pass observed. The frames are reset exactly when the cycle demotes. The stored mask is the fault mask when the snapshot is complete, and unchanged otherwise. The object invariant is kept. |
| LincolnControl.LincolnController.Chassis | modules/canbus/vehicle/lincoln/lincoln_controller.cc:143-258 | In EMERGENCY_MODE the stored code becomes NO_ERROR first. The returned status is what the chassis_ member holds: the projection of the snapshot with the current mode, the code after that reset and the stored mask. So a status reported in EMERGENCY_MODE carries NO_ERROR. |
| LincolnControl.LincolnController.SetChassisErrorMask | modules/canbus/vehicle/lincoln/lincoln_controller.cc:735-738 | The stored mask becomes the argument. |
| LincolnControl.LincolnController.GetChassisErrorMask | modules/canbus/vehicle/lincoln/lincoln_controller.cc:740-743 | Returns the stored mask. |
| LincolnControl.LincolnController.GetChassisErrorCode | modules/canbus/vehicle/lincoln/lincoln_controller.cc:745-748 | Returns the stored error code. |
| LincolnControl.LincolnController.SetChassisErrorCode | modules/canbus/vehicle/lincoln/lincoln_controller.cc:750-754 | The stored error code becomes the argument. |
| Commands.GearCommandOf | modules/canbus/vehicle/lincoln/lincoln_controller.cc:357-391 | A request selects no gear exactly when it is not one of NEUTRAL, REVERSE, DRIVE, PARKING, LOW. So GEAR_NONE, GEAR_INVALID and unknown values all become gear none. |
| Commands.GearEncodingRoundTrip | modules/canbus/vehicle/lincoln/lincoln_controller.cc:357-391 | Each of the five named positions is commanded as itself, every other request as gear none, and every frame command is reached by some position. |
| Commands.TurnCommandOf | modules/canbus/vehicle/lincoln/lincoln_controller.cc:479-486 | LEFT lights the left lamp and RIGHT the right one, each in both directions. Every other signal turns both off. |
| Readiness.SteerFlagNeedsEps | modules/canbus/vehicle/lincoln/lincoln_controller.cc:701-706 | The steer flag holds on a snapshot exactly when the EPS is reported online. |
| Readiness.SpeedFlagNeedsVcuAndEsp | modules/canbus/vehicle/lincoln/lincoln_controller.cc:708-716 | The speed flag holds exactly when both VCU and ESP are reported online. |
| Readiness.BothFlagsNeedAllThree | modules/canbus/vehicle/lincoln/lincoln_controller.cc:700-716 | Both flags together hold exactly when EPS, VCU and ESP are all online. |
| Readiness.AbsentRecordIsOffline | modules/canbus/vehicle/lincoln/lincoln_controller.cc:702-714 | Without a check-response record every requested unit counts as offline. |
| Readiness.FailedFetchIsNotReady | modules/canbus/vehicle/lincoln/lincoln_controller.cc:696-699 | A failed first fetch fails the check, waiting or not. |
| Readiness.EmptyFlagsNeedOnlyAFetch | modules/canbus/vehicle/lincoln/lincoln_controller.cc:695-718 | With no flags requested, the check succeeds exactly when the first fetch does. |
| Readiness.WaitingOnlyHelps | modules/canbus/vehicle/lincoln/lincoln_controller.cc:722-727 | Whatever passes without waiting also passes with waiting. |
| Readiness.NonBlockingLooksOnce | modules/canbus/vehicle/lincoln/lincoln_controller.cc:722-727 | Without waiting, the check is decided by the first poll alone. |
| ChassisFaults.FaultFlags | modules/canbus/vehicle/lincoln/lincoln_controller.cc:511-573 | There are fifteen fault flags, in the order the check shifts them in. |
| ChassisFaults.MaskBitPositions | modules/canbus/vehicle/lincoln/lincoln_controller.cc:511-573 | The named bits of the mask: 0 is EPS watchdog, 4 EPS connector, 5 brake watchdog, 8 brake BOO, 10 gas watchdog, 13 gas connector, 14 gear canbus fault. No bit at or above 15 is set. |
| ChassisFaults.MaskIsUnique | modules/canbus/vehicle/lincoln/lincoln_controller.cc:511-573 | The flags determine the mask uniquely, and it is below 2 to the power of the number of flags. |
| ChassisFaults.MaskZeroIffNoFlag | modules/canbus/vehicle/lincoln/lincoln_controller.cc:253-255 | The mask is zero exactly when no flag is set. |
| ChassisFaults.EscalatesIffLowBitSet | modules/canbus/vehicle/lincoln/lincoln_controller.cc:607-612 | On a complete snapshot, escalation means exactly that some flag among bits 0 to 13 is set. |
| ChassisFaults.GearFaultAlone | modules/canbus/vehicle/lincoln/lincoln_controller.cc:564-612 | A gear fault alone gives the mask 1 << 14 and no escalation. |
| ChassisFaults.MaskUpToExtend | modules/canbus/vehicle/lincoln/lincoln_controller.cc:511-512 | Or-ing flag n in at bit n extends a mask of the first n flags to the first n + 1. |
| ChassisFaults.MaskPrefixUpTo | modules/canbus/vehicle/lincoln/lincoln_controller.cc:498-573 | After n shift steps from zero, the mask holds exactly flags 0 to n - 1, each at its own bit. |
| ChassisFaults.StoredMaskIsMaskOf | modules/canbus/vehicle/lincoln/lincoln_controller.cc:498-575 | The mask stored after all fifteen steps is the mask of the fault flags. |
| ChassisFaults.MaskUpToComplete | modules/canbus/vehicle/lincoln/lincoln_controller.cc:573-575 | A mask holding all fifteen flags is the mask of FaultFlags. |
| BitMask.OrBitBits | modules/canbus/vehicle/lincoln/lincoln_controller.cc:511-512 | `m \| (flag << k)` sets bit k to bit k or flag, and keeps every other bit. |
| BitMask.SetClearBit | modules/canbus/vehicle/lincoln/lincoln_controller.cc:511-512 | Adding 2^k to a number whose bit k is clear sets bit k and no other. |
| BitMask.ZeroHasNoBits | modules/canbus/vehicle/lincoln/lincoln_controller.cc:499 | The initial mask 0 sets no bit. |
| BitMask.NoBitsIsZero | modules/canbus/vehicle/lincoln/lincoln_controller.cc:253 | A mask with no bit set is 0. |
| BitMask.BitsDetermineValue | modules/canbus/vehicle/lincoln/lincoln_controller.cc:511-573 | Two masks with the same bits are equal. |
| BitMask.HighBitsClearBound | modules/canbus/vehicle/lincoln/lincoln_controller.cc:511-573 | A mask with no bit at or above n is below 2^n. |
| BitMask.PowerHasSingleBit | modules/canbus/vehicle/lincoln/lincoln_controller.cc:573 | 1 << k sets bit k and no other. |
| Projection.AbsentFieldsProjectDefaults | modules/canbus/vehicle/lincoln/lincoln_controller.cc:157-245 | Absent fields default: engine rpm 0, speed 0, throttle 0, brake 0, gear GEAR_NONE, steering 0, torque 0, parking brake off, turn signal none and horn off without a light report. Odometer and fuel range are 0, and the engine is reported started. |
| Projection.PresentFieldsProjectAsIs | modules/canbus/vehicle/lincoln/lincoln_controller.cc:154-245 | Present fields are reported unchanged: engine rpm, speed, throttle, brake, gear and steering torque, along with the mode and the error code. The horn is on exactly when the light report says is_horn_on true, so an absent or false flag gives off. |
| Projection.ParkingBrakeNeedsEps | modules/canbus/vehicle/lincoln/lincoln_controller.cc:209-216 | The parking brake is reported on exactly when an EPS report is present and the EPB status is PBRAKE_ON. Without EPS it is off. |
| Projection.TurnSignalFollowsLight | modules/canbus/vehicle/lincoln/lincoln_controller.cc:220-238 | The status says left (or right) exactly when the light report says TURN_LEFT_ON (or TURN_RIGHT_ON). Every other case gives TURN_NONE: no light report, no type, the light off, or another type. Fed back through SetTurningSignal, it lights the same lamp. |
| Projection.MaskReportedIffFault | modules/canbus/vehicle/lincoln/lincoln_controller.cc:252-255 | With a mask stored by the fault check, the status carries a mask exactly when some fault flag was set, and then carries the stored mask itself. |
| Watchdog.DemotionReportsChassisError | modules/canbus/vehicle/lincoln/lincoln_controller.cc:662-669 | A demoting cycle ends in EMERGENCY_MODE with CHASSIS_ERROR, even when a counter wrote MANUAL_INTERVENTION. |
| Watchdog.CycleOnlyDemotes | modules/canbus/vehicle/lincoln/lincoln_controller.cc:633-669 | A cycle changes the mode only to EMERGENCY_MODE, and only when flagged outside EMERGENCY_MODE. An unflagged cycle keeps the error code. |
| Watchdog.RunAppend | modules/canbus/vehicle/lincoln/lincoln_controller.cc:633-683 | Successive passes of the loop compose. |
| Watchdog.EmergencyPersists | modules/canbus/vehicle/lincoln/lincoln_controller.cc:637-669 | Once in EMERGENCY_MODE the watchdog stays there, with both counters at 0. |
| Watchdog.SteerFailuresAccumulate | modules/canbus/vehicle/lincoln/lincoln_controller.cc:637-648 | Below the threshold, steering failures only count up, and the mode and code stay. |
| Watchdog.TenthSteerFailureDemotes | modules/canbus/vehicle/lincoln/lincoln_controller.cc:637-669 | Ten consecutive steering failures from fresh counters demote to EMERGENCY_MODE with CHASSIS_ERROR. |
| Watchdog.NineFailuresThenRecovery | modules/canbus/vehicle/lincoln/lincoln_controller.cc:637-648 | Nine steering failures and then a good cycle leave AUTO_STEER_ONLY and the code in place, with the counter back at 0. |
| Watchdog.NextFail | modules/canbus/vehicle/lincoln/lincoln_controller.cc:637-648 | A failure counter: one more after a monitored failed check, back to 0 otherwise. Its use is stated by SteerFailuresAccumulate, NineFailuresThenRecovery and EmergencyPersists. |
| Watchdog.Cycle | modules/canbus/vehicle/lincoln/lincoln_controller.cc:633-669 | One loop pass over mode, code and counters: counters by NextFail, MANUAL_INTERVENTION on a tripped counter, CHASSIS_ERROR on a fault, demotion when flagged outside EMERGENCY_MODE. SecurityDogCycle is proved equal to it; DemotionReportsChassisError and CycleOnlyDemotes state its outcomes. |
| Readiness.FlagsHold | modules/canbus/vehicle/lincoln/lincoln_controller.cc:700-716 | check_ok of one snapshot: the steer bit demands EPS online, the speed bit VCU and ESP online. Stated by SteerFlagNeedsEps, SpeedFlagNeedsVcuAndEsp and BothFlagsNeedAllThree. |
| ChassisFaults.Escalates | modules/canbus/vehicle/lincoln/lincoln_controller.cc:493-612 | The fault check escalates on a complete snapshot with a steering, brake or throttle fault. Stated by EscalatesIffLowBitSet and GearFaultAlone; CheckChassisError returns it. |
| ChassisFaults.MaskPrefix | modules/canbus/vehicle/lincoln/lincoln_controller.cc:498-573 | The mask after the first n shift steps from 0. MaskPrefixUpTo and StoredMaskIsMaskOf state its bits; CheckChassisError stores MaskPrefix of 15. |
| BitMask.OrBit | modules/canbus/vehicle/lincoln/lincoln_controller.cc:511-512 | One `mask \| (flag << k)`. OrBitBits states its bits. |
| Projection.ProjectChassis | modules/canbus/vehicle/lincoln/lincoln_controller.cc:143-258 | The status chassis() reports, field by field. Stated by AbsentFieldsProjectDefaults, PresentFieldsProjectAsIs and MaskReportedIffFault; Chassis returns it. |
| Projection.EngineRpm | modules/canbus/vehicle/lincoln/lincoln_controller.cc:160-164 | Engine rpm when reported, else 0 (AbsentFieldsProjectDefaults, PresentFieldsProjectAsIs). |
| Projection.SpeedMps | modules/canbus/vehicle/lincoln/lincoln_controller.cc:166-171 | Vehicle speed when reported, else 0 (same lemmas). |
| Projection.ThrottlePercentage | modules/canbus/vehicle/lincoln/lincoln_controller.cc:179-183 | Throttle output when reported, else 0 (same lemmas). |
| Projection.BrakePercentage | modules/canbus/vehicle/lincoln/lincoln_controller.cc:185-189 | Brake output when reported, else 0 (same lemmas). |
| Projection.GearLocation | modules/canbus/vehicle/lincoln/lincoln_controller.cc:191-195 | Gear state when reported, else GEAR_NONE (same lemmas). |
| Projection.SteeringPercentageOf | modules/canbus/vehicle/lincoln/lincoln_controller.cc:197-202 | The steering angle scaled by max_steer_angle when reported (recorded symbolically), else 0 (AbsentFieldsProjectDefaults). |
| Projection.SteeringTorque | modules/canbus/vehicle/lincoln/lincoln_controller.cc:204-208 | EPAS torque when reported, else 0 (PresentFieldsProjectAsIs, AbsentFieldsProjectDefaults). |
| Projection.ParkingBrake | modules/canbus/vehicle/lincoln/lincoln_controller.cc:210-216 | On only with an EPS report present and the EPB status PBRAKE_ON (ParkingBrakeNeedsEps). |
| Projection.TurnSignalOf | modules/canbus/vehicle/lincoln/lincoln_controller.cc:221-238 | Left or right for TURN_LEFT_ON or TURN_RIGHT_ON, none otherwise (TurnSignalFollowsLight). |
| Projection.Horn | modules/canbus/vehicle/lincoln/lincoln_controller.cc:240-245 | On exactly when the light report has is_horn_on set and true (PresentFieldsProjectAsIs). |
| ChassisFaults.EpsFault | modules/canbus/vehicle/lincoln/lincoln_controller.cc:505-509 | steer_fault: one of the five EPS fault flags is set. Escalates uses it; EscalatesIffLowBitSet ties it to bits 0 to 4. |
| ChassisFaults.BrakeFault | modules/canbus/vehicle/lincoln/lincoln_controller.cc:528-532 | brake_fault: one of the five brake fault flags is set (bits 5 to 9, EscalatesIffLowBitSet). |
| ChassisFaults.GasFault | modules/canbus/vehicle/lincoln/lincoln_controller.cc:550-553 | throttle_fault: one of the four gas fault flags is set (bits 10 to 13, EscalatesIffLowBitSet). |
| ChassisFaults.FlagAt | modules/canbus/vehicle/lincoln/lincoln_controller.cc:511-573 | Flag k in shift order: EPS watchdog, ch1, ch2, calibration, connector; brake watchdog, ch1, ch2, boo, connector; gas watchdog, ch1, ch2, connector; gear canbus fault. MaskBitPositions states the named positions. |
| ChassisFaults.Complete | modules/canbus/vehicle/lincoln/lincoln_controller.cc:500-564 | The four presence guards of the fault check: EPS, brake, gas and gear reports all present. CheckChassisError stores a mask only then. |
| Readiness.EpsOnline | modules/canbus/vehicle/lincoln/lincoln_controller.cc:702-704 | is_eps_online: the record is present, the flag is set and true (SteerFlagNeedsEps, AbsentRecordIsOffline). |
| Readiness.VcuOnline | modules/canbus/vehicle/lincoln/lincoln_controller.cc:709-711 | is_vcu_online: the same for the VCU (SpeedFlagNeedsVcuAndEsp). |
| Readiness.EspOnline | modules/canbus/vehicle/lincoln/lincoln_controller.cc:712-714 | is_esp_online: the same for the ESP (SpeedFlagNeedsVcuAndEsp). |
| Readiness.PollBudget | modules/canbus/vehicle/lincoln/lincoln_controller.cc:689-727 | The polls the do-while may make: 20 when waiting, 1 otherwise. CheckResponse makes between 1 and this many polls. |
| Readiness.ResponseAccepted | modules/canbus/vehicle/lincoln/lincoln_controller.cc:686-733 | The reference definition of a successful check: some poll within the budget accepts, and every earlier poll fetched a snapshot. CheckResponse returns true exactly when it holds; FailedFetchIsNotReady, EmptyFlagsNeedOnlyAFetch, WaitingOnlyHelps and NonBlockingLooksOnce state its cases. |
| LincolnControl.WithEnables | modules/canbus/vehicle/lincoln/lincoln_controller.cc:271-273 | The enable or disable state of brake, throttle and steering, as set at 271-273, 305-307 and 328-330. The three Enable methods transmit exactly WithEnables of the old frames. |
| LincolnControl.PercentOf | modules/canbus/vehicle/lincoln/lincoln_controller.cc:429 | max_steer_angle * angle / 100.0 in exact reals, used for the angle at 429 and 443 and the rate at 446. Steer and SteerWithSpeed write it. |
| Watchdog.SteerAutomated | modules/canbus/vehicle/lincoln/lincoln_controller.cc:638-639 | COMPLETE_AUTO_DRIVE or AUTO_STEER_ONLY: the modes that monitor the EPS and that Steer accepts (lines 424-425). |
| Watchdog.SpeedAutomated | modules/canbus/vehicle/lincoln/lincoln_controller.cc:651-652 | COMPLETE_AUTO_DRIVE or AUTO_SPEED_ONLY: the modes that monitor VCU and ESP and that Gear, Brake and Throttle accept. |
| Watchdog.Flagged | modules/canbus/vehicle/lincoln/lincoln_controller.cc:635-665 | emergency_mode at the end of the pass: a counter reached 10 or the fault check escalated (DemotionReportsChassisError, CycleOnlyDemotes). |
| Watchdog.Demotes | modules/canbus/vehicle/lincoln/lincoln_controller.cc:667-669 | Emergency() runs: flagged and the sampled mode is not EMERGENCY_MODE. SecurityDogCycle resets the frames exactly then. |
| Watchdog.Run | modules/canbus/vehicle/lincoln/lincoln_controller.cc:633 | Successive passes of the while loop (RunAppend, EmergencyPersists, TenthSteerFailureDemotes, NineFailuresThenRecovery). |

## Left out

- Start and Stop, the watchdog thread, the spin until the CAN sender runs, the 50 ms period with its drift bookkeeping, and the 20 ms pause between waiting `CheckResponse` polls (lines 724-725) are left out. These are real-time concurrency. The model runs one loop pass at a time (`SecurityDogCycle`) and reasons about sequences of passes in `Watchdog.Run`.
- The mutexes around the mask and error-code getters and setters are left out: the model is sequential, so these are plain field reads and writes.
- The collaborators' own code is not part of this model: the message manager, the CAN sender and the five protocol classes. Their effects are modelled as follows:
  - the snapshots they hand out are inputs;
  - handle lookups are the `available` set;
  - registrations and forced transmissions are logged;
  - `ResetSendMessages` puts every frame back to `DefaultFrames`, as assumed.
- The header `lincoln_controller.h` is not part of this model. The constructor's initial values (COMPLETE_MANUAL, NO_ERROR, mask 0) are assumed, and the five frames are assumed to start at `DefaultFrames`. The object invariant's clause that the actuation frames are at rest in COMPLETE_MANUAL holds after `Init` only because of that assumption; `Init` itself never resets the frames.
- The watchdog counters are locals of `SecurityDogThreadFunc`, set to 0 when the thread starts. The model keeps them as class fields, which the constructor sets to 0.
- LincolnControl.LincolnController.SteerWithSpeed: `ProtocolData::BoundedValue` is not visible, so the rate is recorded as `BoundedRate(min, max, requested)` and no clamp is asserted.
- LincolnControl.LincolnController.Steer: the angle scaling is exact real arithmetic (`PercentOf`), so IEEE double rounding is not modelled.
- Projection.SteeringPercentageOf: the division by max_steer_angle is recorded symbolically (`SteeringScaled`) rather than evaluated.
- `SetEpbBreak`, `SetBeam` and `SetHorn` are left out: they have empty bodies.
- The logging macros are left out.
- The `steering_timestamp` copy in `chassis()` is left out.
- LincolnControl.LincolnController.Init: a partial failure leaves some handles bound, and the model states only that the newly bound ones were available, not which subset.
- The C++ `int32_t` width of the mask, counters and flags is not modelled as wrap-around. The mask uses bits 0 to 14 only, and a counter that is not reset grows by one per failing cycle. The model uses unbounded integers, so a counter past 2^31 cycles is not modelled.

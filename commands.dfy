/** The pure encodings behind Gear and SetTurningSignal: which frame command a
    requested gear position or turn signal becomes. */
module Commands {
  import opened LincolnTypes

  /** A gear position the Gear66 frame can select by name. */
  predicate Selectable(p: GearPosition)
  {
    p.GearNeutral? || p.GearReverse? || p.GearDrive? || p.GearParking? || p.GearLow?
  }

  /** The gear switch of Gear: the five named positions select their gear;
      GEAR_NONE, GEAR_INVALID and every unlisted value select no gear. */
  function GearCommandOf(p: GearPosition): (c: GearCommand)
    ensures c == CmdNoGear <==> !Selectable(p)
  {
    match p
    case GearNeutral => CmdNeutral
    case GearReverse => CmdReverse
    case GearDrive => CmdDrive
    case GearParking => CmdPark
    case GearLow => CmdLow
    case GearNone => CmdNoGear
    case GearInvalid => CmdNoGear
    case GearUnlisted(_) => CmdNoGear
  }

  /** The position a gear command selects, read back as a Chassis gear position. */
  function PositionSelectedBy(c: GearCommand): GearPosition
  {
    match c
    case CmdNeutral => GearNeutral
    case CmdReverse => GearReverse
    case CmdDrive => GearDrive
    case CmdPark => GearParking
    case CmdLow => GearLow
    case CmdNoGear => GearNone
  }

  /** Every selectable position is commanded as itself; every other request
      is commanded as no gear; and every frame command is reached. */
  lemma GearEncodingRoundTrip(p: GearPosition, c: GearCommand)
    ensures Selectable(p) ==> PositionSelectedBy(GearCommandOf(p)) == p
    ensures !Selectable(p) ==> PositionSelectedBy(GearCommandOf(p)) == GearNone
    ensures GearCommandOf(PositionSelectedBy(c)) == c
  {
  }

  /** The turn-signal chain of SetTurningSignal: LEFT and RIGHT light their
      lamp, anything else turns both off. */
  function TurnCommandOf(s: TurnSignal): (c: TurnCommand)
    ensures c == CmdTurnLeft <==> s == TurnLeft
    ensures c == CmdTurnRight <==> s == TurnRight
    ensures c == CmdTurnNone <==> !(s == TurnLeft || s == TurnRight)
  {
    if s == TurnLeft then CmdTurnLeft
    else if s == TurnRight then CmdTurnRight
    else CmdTurnNone
  }
}

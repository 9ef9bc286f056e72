/** The chassis fault check: which per-unit fault flags exist, in which order
    they enter the error mask, and which of them escalate. */
module ChassisFaults {
  import opened LincolnTypes
  import opened BitMask

  /** The four sub-reports the check needs before it stores a mask. */
  predicate Complete(d: ChassisDetail)
  {
    d.eps.Some? && d.brake.Some? && d.gas.Some? && d.gear.Some?
  }

  predicate EpsFault(e: EpsReport)
  {
    e.watchdogFault || e.channel1Fault || e.channel2Fault || e.calibrationFault || e.connectorFault
  }

  predicate BrakeFault(b: BrakeReport)
  {
    b.watchdogFault || b.channel1Fault || b.channel2Fault || b.booFault || b.connectorFault
  }

  predicate GasFault(g: GasReport)
  {
    g.watchdogFault || g.channel1Fault || g.channel2Fault || g.connectorFault
  }

  /** The fault flags in the order the check shifts them in: bit k of the
      mask is element k. */
  function FaultFlags(d: ChassisDetail): (flags: seq<bool>)
    requires Complete(d)
    ensures |flags| == 15
  {
    seq(15, k => FlagAt(d, k))
  }

  /** Flag k of a snapshot whose reports may be missing: false where the
      report holding it is absent. */
  function FlagAt(d: ChassisDetail, k: int): bool
  {
    match k
    case 0 => d.eps.Some? && d.eps.value.watchdogFault
    case 1 => d.eps.Some? && d.eps.value.channel1Fault
    case 2 => d.eps.Some? && d.eps.value.channel2Fault
    case 3 => d.eps.Some? && d.eps.value.calibrationFault
    case 4 => d.eps.Some? && d.eps.value.connectorFault
    case 5 => d.brake.Some? && d.brake.value.watchdogFault
    case 6 => d.brake.Some? && d.brake.value.channel1Fault
    case 7 => d.brake.Some? && d.brake.value.channel2Fault
    case 8 => d.brake.Some? && d.brake.value.booFault
    case 9 => d.brake.Some? && d.brake.value.connectorFault
    case 10 => d.gas.Some? && d.gas.value.watchdogFault
    case 11 => d.gas.Some? && d.gas.value.channel1Fault
    case 12 => d.gas.Some? && d.gas.value.channel2Fault
    case 13 => d.gas.Some? && d.gas.value.connectorFault
    case 14 => d.gear.Some? && d.gear.value.canbusFault
    case _ => false
  }

  /** m holds flags 0 .. n-1 of the snapshot and nothing above. */
  ghost predicate MaskUpTo(m: int, d: ChassisDetail, n: nat)
  {
    m >= 0 && forall k: nat :: Bit(m, k) == (k < n && FlagAt(d, k))
  }

  /** m is the mask of flags: bit k is set exactly when flag k is. */
  ghost predicate MaskOf(m: int, flags: seq<bool>)
  {
    m >= 0 && forall k: nat :: Bit(m, k) == (k < |flags| && flags[k])
  }

  /** The check escalates when the snapshot is complete and a steering, brake
      or throttle fault is present; a gear fault never escalates. */
  predicate Escalates(d: ChassisDetail)
  {
    Complete(d) && (EpsFault(d.eps.value) || BrakeFault(d.brake.value) || GasFault(d.gas.value))
  }

  /** The named bit positions of the mask. */
  lemma MaskBitPositions(m: nat, d: ChassisDetail)
    requires Complete(d) && MaskOf(m, FaultFlags(d))
    ensures Bit(m, 0) == d.eps.value.watchdogFault && Bit(m, 4) == d.eps.value.connectorFault
    ensures Bit(m, 5) == d.brake.value.watchdogFault && Bit(m, 8) == d.brake.value.booFault
    ensures Bit(m, 10) == d.gas.value.watchdogFault && Bit(m, 13) == d.gas.value.connectorFault
    ensures Bit(m, 14) == d.gear.value.canbusFault
    ensures forall k: nat :: k >= 15 ==> !Bit(m, k)
  {
  }

  /** A flag sequence has one mask, and it fits in |flags| bits. */
  lemma {:induction false} MaskIsUnique(a: int, b: int, flags: seq<bool>)
    requires MaskOf(a, flags) && MaskOf(b, flags)
    ensures a == b
    ensures 0 <= a < Pow2(|flags|)
  {
    BitsDetermineValue(a, b);
    HighBitsClearBound(a, |flags|);
  }

  /** The mask is zero exactly when no flag is set. */
  lemma {:induction false} MaskZeroIffNoFlag(m: int, flags: seq<bool>)
    requires MaskOf(m, flags)
    ensures m == 0 <==> forall k :: 0 <= k < |flags| ==> !flags[k]
  {
    if forall k :: 0 <= k < |flags| ==> !flags[k] {
      NoBitsIsZero(m);
    } else {
      var k :| 0 <= k < |flags| && flags[k];
      assert Bit(m, k);
      if m == 0 {
        ZeroHasNoBits(k);
      }
    }
  }

  /** Escalation is exactly "some flag among the first fourteen bits is set". */
  lemma EscalatesIffLowBitSet(d: ChassisDetail)
    requires Complete(d)
    ensures Escalates(d) <==> exists k :: 0 <= k < 14 && FaultFlags(d)[k]
  {
    var f := FaultFlags(d);
    if Escalates(d) {
      if EpsFault(d.eps.value) {
        assert f[0] || f[1] || f[2] || f[3] || f[4];
      } else if BrakeFault(d.brake.value) {
        assert f[5] || f[6] || f[7] || f[8] || f[9];
      } else {
        assert f[10] || f[11] || f[12] || f[13];
      }
    }
  }

  /** A gear fault on its own: the mask is 1 << 14 and nothing escalates. */
  lemma {:induction false} GearFaultAlone(m: int, d: ChassisDetail)
    requires Complete(d) && MaskOf(m, FaultFlags(d))
    requires d.gear.value.canbusFault
    requires !EpsFault(d.eps.value) && !BrakeFault(d.brake.value) && !GasFault(d.gas.value)
    ensures !Escalates(d)
    ensures m == Pow2(14)
  {
    PowerHasSingleBit(14);
    BitsDetermineValue(m, Pow2(14));
  }

  lemma EmptyMaskUpTo(d: ChassisDetail)
    ensures MaskUpTo(0, d, 0)
  {
    forall k: nat
      ensures !Bit(0, k)
    {
      ZeroHasNoBits(k);
    }
  }

  /** Shifting flag n in at position n extends the mask by one flag. */
  lemma MaskUpToExtend(m: nat, d: ChassisDetail, n: nat)
    requires MaskUpTo(m, d, n)
    ensures MaskUpTo(OrBit(m, FlagAt(d, n), n), d, n + 1)
  {
    OrBitBits(m, FlagAt(d, n), n);
  }

  /** The mask after the first n flags are OR-ed in, flag k at bit k,
      starting from zero. */
  function MaskPrefix(d: ChassisDetail, n: nat): nat
  {
    if n == 0 then 0 else OrBit(MaskPrefix(d, n - 1), FlagAt(d, n - 1), n - 1)
  }

  lemma {:induction false} MaskPrefixUpTo(d: ChassisDetail, n: nat)
    ensures MaskUpTo(MaskPrefix(d, n), d, n)
  {
    if n == 0 {
      EmptyMaskUpTo(d);
    } else {
      MaskPrefixUpTo(d, n - 1);
      MaskUpToExtend(MaskPrefix(d, n - 1), d, n - 1);
    }
  }

  /** The mask the check stores is the mask of the fault flags: bit k is set
      exactly when flag k of the snapshot is. */
  lemma StoredMaskIsMaskOf(d: ChassisDetail)
    requires Complete(d)
    ensures MaskOf(MaskPrefix(d, 15), FaultFlags(d))
  {
    MaskPrefixUpTo(d, 15);
    MaskUpToComplete(MaskPrefix(d, 15), d);
  }

  /** With all fifteen flags shifted in, the mask is the mask of FaultFlags. */
  lemma MaskUpToComplete(m: int, d: ChassisDetail)
    requires Complete(d) && MaskUpTo(m, d, 15)
    ensures MaskOf(m, FaultFlags(d))
  {
    var flags := FaultFlags(d);
    forall k: nat
      ensures Bit(m, k) == (k < |flags| && flags[k])
    {
      if k < 15 {
        assert FlagAt(d, k) == flags[k];
      }
    }
  }
}

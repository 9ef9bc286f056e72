/** The integer bit operations CheckChassisError uses to build its 15-bit mask:
    `mask |= (flag << k)` on a non-negative int32. */
module BitMask {

  function Pow2(k: nat): (r: nat)
    ensures r >= 1
  {
    if k == 0 then 1 else 2 * Pow2(k - 1)
  }

  /** Bit k of m, that is (m >> k) & 1 == 1. */
  predicate Bit(m: nat, k: nat)
  {
    if k == 0 then m % 2 == 1 else Bit(m / 2, k - 1)
  }

  lemma {:induction false} ZeroHasNoBits(k: nat)
    ensures !Bit(0, k)
  {
    if k > 0 {
      ZeroHasNoBits(k - 1);
    }
  }

  /** Adding 2^k to a number whose bit k is clear sets bit k and no other. */
  lemma {:induction false} SetClearBit(m: nat, k: nat)
    requires !Bit(m, k)
    ensures Bit(m + Pow2(k), k)
    ensures forall j: nat :: j != k ==> Bit(m + Pow2(k), j) == Bit(m, j)
  {
    if k == 0 {
      assert (m + 1) / 2 == m / 2;
    } else {
      SetClearBit(m / 2, k - 1);
      assert (m + Pow2(k)) / 2 == m / 2 + Pow2(k - 1);
      assert (m + Pow2(k)) % 2 == m % 2;
      forall j: nat | j != k
        ensures Bit(m + Pow2(k), j) == Bit(m, j)
      {
        if j > 0 {
          assert Bit(m + Pow2(k), j) == Bit((m + Pow2(k)) / 2, j - 1);
        }
      }
    }
  }

  /** m | ((flag ? 1 : 0) << k). */
  function OrBit(m: nat, flag: bool, k: nat): nat
  {
    if flag && !Bit(m, k) then m + Pow2(k) else m
  }

  /** OrBit ors bit k with flag and keeps every other bit. */
  lemma OrBitBits(m: nat, flag: bool, k: nat)
    ensures Bit(OrBit(m, flag, k), k) == (Bit(m, k) || flag)
    ensures forall j: nat :: j != k ==> Bit(OrBit(m, flag, k), j) == Bit(m, j)
  {
    if flag && !Bit(m, k) {
      SetClearBit(m, k);
    }
  }

  /** A number with no bit set is zero. */
  lemma {:induction false} NoBitsIsZero(m: nat)
    requires forall j: nat :: !Bit(m, j)
    ensures m == 0
    decreases m
  {
    if m > 0 {
      assert !Bit(m, 0);
      forall j: nat
        ensures !Bit(m / 2, j)
      {
        assert !Bit(m, j + 1);
      }
      NoBitsIsZero(m / 2);
    }
  }

  /** A number is determined by its bits. */
  lemma {:induction false} BitsDetermineValue(a: nat, b: nat)
    requires forall j: nat :: Bit(a, j) == Bit(b, j)
    ensures a == b
    decreases a + b
  {
    if a > 0 || b > 0 {
      assert Bit(a, 0) == Bit(b, 0);
      forall j: nat
        ensures Bit(a / 2, j) == Bit(b / 2, j)
      {
        assert Bit(a, j + 1) == Bit(b, j + 1);
      }
      BitsDetermineValue(a / 2, b / 2);
    }
  }

  /** A number whose bits at n and above are all clear is below 2^n. */
  lemma {:induction false} HighBitsClearBound(m: nat, n: nat)
    requires forall j: nat :: j >= n ==> !Bit(m, j)
    ensures m < Pow2(n)
  {
    if n == 0 {
      NoBitsIsZero(m);
    } else {
      forall j: nat | j >= n - 1
        ensures !Bit(m / 2, j)
      {
        assert !Bit(m, j + 1);
      }
      HighBitsClearBound(m / 2, n - 1);
    }
  }

  /** 2^k has exactly bit k set. */
  lemma PowerHasSingleBit(k: nat)
    ensures Bit(Pow2(k), k)
    ensures forall j: nat :: j != k ==> !Bit(Pow2(k), j)
  {
    ZeroHasNoBits(k);
    SetClearBit(0, k);
    forall j: nat | j != k
      ensures !Bit(Pow2(k), j)
    {
      ZeroHasNoBits(j);
    }
  }
}

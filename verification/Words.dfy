/**
 Machine words as natural numbers. Shifts and single-bit operations are defined by halving,
 so that the facts the schedulers need about them are plain inductions over the shift count.
 */
module Words {
  /** `1 << k`. */
  function Pow2(k: nat): (p: nat)
    ensures p > 0
  {
    if k == 0 then 1 else 2 * Pow2(k - 1)
  }

  /** `x >> k`. */
  function Shr(x: nat, k: nat): nat
    decreases k, x
  {
    if k == 0 then x else Shr(x / 2, k - 1)
  }

  /** `x << k`, without wrap-around. */
  function Shl(x: nat, k: nat): nat
    decreases k, x
  {
    if k == 0 then x else 2 * Shl(x, k - 1)
  }

  /** `x & (~0 << k)`: the low `k` bits cleared. */
  function MaskLow(x: nat, k: nat): nat {
    Shl(Shr(x, k), k)
  }

  predicate TestBit(x: nat, k: nat)
    decreases k, x
  {
    if k == 0 then x % 2 == 1 else TestBit(x / 2, k - 1)
  }

  /** `x | (1 << k)`. */
  function SetBit(x: nat, k: nat): (y: nat)
    ensures y > 0
    decreases k, x
  {
    if k == 0 then 2 * (x / 2) + 1 else 2 * SetBit(x / 2, k - 1) + x % 2
  }

  /** `x & ~(1 << k)`. */
  function ClearBit(x: nat, k: nat): nat
    decreases k, x
  {
    if k == 0 then 2 * (x / 2) else 2 * ClearBit(x / 2, k - 1) + x % 2
  }

  /** `x & y`. */
  function BitAnd(x: nat, y: nat): nat
    decreases x
  {
    if x == 0 then 0 else 2 * BitAnd(x / 2, y / 2) + (if x % 2 == 1 && y % 2 == 1 then 1 else 0)
  }

  /** `__ffs(x)`: the position of the least significant set bit, i.e. the trailing zero count. */
  function Ffs(x: nat): nat
    requires x > 0
  {
    if x % 2 == 1 then 0 else 1 + Ffs(x / 2)
  }

  /** `fls64(x)`: one more than the position of the most significant set bit, 0 for 0. */
  function Fls(x: nat): nat {
    if x == 0 then 0 else 1 + Fls(x / 2)
  }

  lemma {:induction false} SetBitBits(x: nat, k: nat, j: nat)
    ensures TestBit(SetBit(x, k), j) <==> j == k || TestBit(x, j)
    decreases k
  {
    if k > 0 && j > 0 {
      SetBitBits(x / 2, k - 1, j - 1);
    }
  }

  lemma {:induction false} ClearBitBits(x: nat, k: nat, j: nat)
    ensures TestBit(ClearBit(x, k), j) <==> j != k && TestBit(x, j)
    decreases k
  {
    if k > 0 && j > 0 {
      ClearBitBits(x / 2, k - 1, j - 1);
    }
  }

  lemma {:induction false} FfsIsLowestBit(x: nat)
    requires x > 0
    ensures TestBit(x, Ffs(x))
    ensures forall j: nat :: j < Ffs(x) ==> !TestBit(x, j)
  {
    if x % 2 == 0 {
      FfsIsLowestBit(x / 2);
      forall j: nat | j < Ffs(x) ensures !TestBit(x, j) {
        if j > 0 {
          assert !TestBit(x / 2, j - 1);
        }
      }
    }
  }

  lemma {:induction false} ZeroHasNoBits(k: nat)
    ensures !TestBit(0, k)
    decreases k
  {
    if k > 0 {
      ZeroHasNoBits(k - 1);
    }
  }

  /** Rounding up and rounding down are adjoint: the one fact behind every window argument. */
  lemma {:induction false} ShrBelow(x: nat, m: nat, k: nat)
    ensures Shr(x, k) < m <==> x < Shl(m, k)
    decreases k
  {
    if k > 0 {
      ShrBelow(x / 2, m, k - 1);
    }
  }

  lemma {:induction false} ShlIsMultiple(m: nat, k: nat)
    ensures Shl(m, k) == m * Pow2(k)
    decreases k
  {
    if k > 0 {
      ShlIsMultiple(m, k - 1);
      assert m * Pow2(k) == 2 * (m * Pow2(k - 1));
    }
  }

  lemma {:induction false} ShlSum(m: nat, n: nat, k: nat)
    ensures Shl(m + n, k) == Shl(m, k) + Shl(n, k)
    decreases k
  {
    if k > 0 {
      ShlSum(m, n, k - 1);
    }
  }

  lemma {:induction false} ShrShl(m: nat, k: nat)
    ensures Shr(Shl(m, k), k) == m
    decreases k
  {
    if k > 0 {
      ShrShl(m, k - 1);
    }
  }

  lemma {:induction false} ShlShl(m: nat, j: nat, k: nat)
    ensures Shl(Shl(m, j), k) == Shl(m, j + k)
    decreases k
  {
    if k > 0 {
      ShlShl(m, j, k - 1);
    }
  }

  lemma {:induction false} ShrShr(x: nat, j: nat, k: nat)
    ensures Shr(Shr(x, j), k) == Shr(x, j + k)
    decreases j
  {
    if j > 0 {
      ShrShr(x / 2, j - 1, k);
    }
  }

  lemma {:induction false} ShrMonotone(x: nat, y: nat, k: nat)
    requires x <= y
    ensures Shr(x, k) <= Shr(y, k)
    decreases k
  {
    if k > 0 {
      ShrMonotone(x / 2, y / 2, k - 1);
    }
  }

  lemma {:induction false} Pow2Monotone(j: nat, k: nat)
    requires j <= k
    ensures Pow2(j) <= Pow2(k)
    decreases k
  {
    if j < k {
      Pow2Monotone(j, k - 1);
    }
  }

  lemma MaskLowBounds(x: nat, k: nat)
    ensures MaskLow(x, k) <= x < MaskLow(x, k) + Pow2(k)
  {
    var m := Shr(x, k);
    ShrBelow(x, m, k);
    ShrBelow(x, m + 1, k);
    ShlSum(m, 1, k);
    ShlIsMultiple(1, k);
  }

  /** A number and its trailing zero count determine each other: `x == odd << Ffs(x)`. */
  lemma {:induction false} FfsDecomposes(x: nat)
    requires x > 0
    ensures Shl(Shr(x, Ffs(x)), Ffs(x)) == x
    ensures Shr(x, Ffs(x)) % 2 == 1
  {
    if x % 2 == 0 {
      FfsDecomposes(x / 2);
    }
  }

  lemma {:induction false} FfsShl(x: nat, k: nat)
    requires x > 0
    ensures Shl(x, k) > 0 && Ffs(Shl(x, k)) == Ffs(x) + k
    decreases k
  {
    if k > 0 {
      FfsShl(x, k - 1);
    }
  }

  /** `x` is a multiple of `2^k` for every `k` up to its trailing zero count. */
  lemma {:induction false} AlignedBelowFfs(x: nat, k: nat)
    requires x > 0 && k <= Ffs(x)
    ensures MaskLow(x, k) == x
    decreases k
  {
    if k > 0 {
      AlignedBelowFfs(x / 2, k - 1);
    }
  }

  lemma {:induction false} FfsBound(x: nat, k: nat)
    requires 0 < x < Pow2(k)
    ensures Ffs(x) < k
    decreases k
  {
    if x % 2 == 0 {
      FfsBound(x / 2, k - 1);
    }
  }

  /** Adding one carries through exactly the trailing ones. */
  lemma {:induction false} CarryAtFfs(b: nat)
    ensures Shr(b, Ffs(b + 1)) + 1 == Shr(b + 1, Ffs(b + 1))
  {
    if (b + 1) % 2 == 0 {
      assert b == 2 * (b / 2) + 1 && (b + 1) / 2 == b / 2 + 1;
      CarryAtFfs(b / 2);
    }
  }

  /** A bit above the trailing zeros does not change their count. */
  lemma {:induction false} FfsSetBit(x: nat, k: nat)
    requires x > 0 && Ffs(x) <= k
    ensures SetBit(x, k) > 0 && Ffs(SetBit(x, k)) == Ffs(x)
    decreases k
  {
    if x % 2 == 0 && k > 0 {
      FfsSetBit(x / 2, k - 1);
    }
  }

  lemma {:induction false} FlsBounds(x: nat)
    requires x > 0
    ensures Fls(x) > 0
    ensures Pow2(Fls(x) - 1) <= x < Pow2(Fls(x))
  {
    if x > 1 {
      FlsBounds(x / 2);
    }
  }

  lemma {:induction false} FlsMonotone(x: nat, y: nat)
    requires x <= y
    ensures Fls(x) <= Fls(y)
  {
    if x > 0 {
      FlsMonotone(x / 2, y / 2);
    }
  }

  lemma {:induction false} BitAndShifted(x: nat, y: nat, k: nat)
    ensures BitAnd(x, Shl(y, k)) == Shl(BitAnd(Shr(x, k), y), k)
    decreases k
  {
    if x == 0 {
      ShrZero(k);
      ShlIsMultiple(0, k);
    } else if k > 0 {
      BitAndShifted(x / 2, y, k - 1);
    }
  }

  lemma {:induction false} ShrZero(k: nat)
    ensures Shr(0, k) == 0
    decreases k
  {
    if k > 0 {
      ShrZero(k - 1);
    }
  }

  lemma {:induction false} BitAndOnes(x: nat, n: nat)
    requires x < Pow2(n)
    ensures BitAnd(x, Pow2(n) - 1) == x
    decreases n
  {
    if x > 0 {
      BitAndOnes(x / 2, n - 1);
    }
  }
}

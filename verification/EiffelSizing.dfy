/**
 How `gq_init` sizes the gradient queue (kernel/sch_eiffel/sch_eiffel.c:484-541): the bit trick that
 computes a logarithm, the height and size of the tree, and when they fit the buckets.
 */
module EiffelSizing {
  import opened Words
  import opened Granules
  import opened GradientTree

  const MASKS: seq<nat> := [0x2, 0xC, 0xF0, 0xFF00, 0xFFFF0000]
  const SHIFTS: seq<nat> := [1, 2, 4, 8, 16]

  /** The largest `r` with `2^r <= v`; 0 for 0. */
  function FloorLog2(v: nat): nat {
    if v == 0 then 0 else Fls(v) - 1
  }

  lemma FloorLog2Bounds(v: nat)
    requires v > 0
    ensures Pow2(FloorLog2(v)) <= v < Pow2(FloorLog2(v) + 1)
  {
    FlsBounds(v);
  }

  lemma {:induction false} FlsShr(x: nat, k: nat)
    requires Shr(x, k) > 0
    ensures Fls(x) == Fls(Shr(x, k)) + k
    decreases k
  {
    if k > 0 {
      FlsShr(x / 2, k - 1);
      if x == 0 {
        ShrZero(k);
      }
    }
  }

  lemma SmallPowers()
    ensures Pow2(0) == 1 && Pow2(1) == 2 && Pow2(2) == 4 && Pow2(3) == 8 && Pow2(4) == 16 && Pow2(5) == 32
    ensures Pow2(8) == 256 && Pow2(16) == 65536
  {
    assert Pow2(8) == 256;
    assert Pow2(12) == 16 * Pow2(8);
  }

  /** Mask `i` selects the upper half of a word of `2 * SHIFTS[i]` bits. */
  lemma MaskIsUpperHalf(i: nat)
    requires i < 5
    ensures SHIFTS[i] == Pow2(i) && MASKS[i] == Shl(Pow2(SHIFTS[i]) - 1, SHIFTS[i])
  {
    SmallPowers();
    ShlIsMultiple(Pow2(SHIFTS[i]) - 1, SHIFTS[i]);
  }

  lemma {:induction false} ShlOne(k: nat)
    ensures Shl(1, k) == Pow2(k)
    decreases k
  {
    if k > 0 {
      ShlOne(k - 1);
    }
  }

  lemma {:induction false} ShlIsZero(x: nat, k: nat)
    ensures Shl(x, k) == 0 <==> x == 0
    decreases k
  {
    if k > 0 {
      ShlIsZero(x, k - 1);
    }
  }

  lemma MaskTest(v: nat, s: nat)
    requires v < Pow2(s + s)
    ensures BitAnd(v, Shl(Pow2(s) - 1, s)) != 0 <==> v >= Pow2(s)
    ensures Shr(v, s) < Pow2(s)
  {
    ShlOne(s + s);
    ShlShl(1, s, s);
    ShlOne(s);
    ShrBelow(v, Pow2(s), s);
    ShrBelow(v, 1, s);
    BitAndShifted(v, Pow2(s) - 1, s);
    BitAndOnes(Shr(v, s), s);
    ShlIsZero(Shr(v, s), s);
  }

  /** Setting a clear bit adds it; `r |= 1 << k`. */
  lemma {:induction false} SetClearBit(r: nat, k: nat)
    requires MaskLow(r, k + 1) == r
    ensures SetBit(r, k) == r + Pow2(k) && MaskLow(SetBit(r, k), k) == SetBit(r, k)
    ensures MaskLow(r, k) == r
    decreases k
  {
    if k > 0 {
      SetClearBit(r / 2, k - 1);
    }
  }

  lemma WordSize()
    ensures Pow2(32) == 0x1_0000_0000
  {
    SmallPowers();
    ShlShl(1, 16, 16);
    ShlOne(16);
    ShlOne(32);
    ShlIsMultiple(Pow2(16), 16);
  }

  /** `v` is `v0` shifted by `r`, a multiple of `2^i`, and has at most `2^i` bits. */
  ghost predicate Halved(v0: nat, v: nat, r: nat, i: nat) {
    && v < Pow2(Pow2(i))
    && v == Shr(v0, r) && (v0 > 0 ==> v > 0) && (v0 == 0 ==> r == 0)
    && MaskLow(r, i) == r
  }

  lemma HalvingStep(v0: nat, v: nat, r: nat, i: nat)
    requires i <= 4 && Halved(v0, v, r, i + 1)
    ensures if BitAnd(v, MASKS[i]) != 0 then Halved(v0, Shr(v, SHIFTS[i]), SetBit(r, i), i) else Halved(v0, v, r, i)
  {
    MaskIsUpperHalf(i);
    var s := SHIFTS[i];
    MaskTest(v, s);
    SetClearBit(r, i);
    if BitAnd(v, MASKS[i]) != 0 {
      ShrShr(v0, r, s);
      ShrBelow(v, 1, s);
      ShlOne(s);
    }
  }

  /** `log_approx`: floor of the base-2 logarithm of a 32-bit word. */
  method LogApprox(v0: nat) returns (r: nat)
    requires v0 < 0x1_0000_0000
    ensures r == FloorLog2(v0)
  {
    var v := v0;
    r := 0;
    var i := 4;
    SmallPowers();
    WordSize();
    MaskZero(5);
    while i >= 0
      invariant -1 <= i <= 4
      invariant Halved(v0, v, r, i + 1)
      decreases i
    {
      HalvingStep(v0, v, r, i);
      if BitAnd(v, MASKS[i]) != 0 {
        v := Shr(v, SHIFTS[i]);
        r := SetBit(r, i);
      }
      i := i - 1;
    }
    if v0 > 0 {
      FlsShr(v0, r);
    }
  }

  lemma {:induction false} MaskZero(k: nat)
    ensures MaskLow(0, k) == 0
    decreases k
  {
    ShrZero(k);
    ShlIsMultiple(0, k);
  }

  /** The height `gq_init` gives the tree; `num_of_buckets` is truncated to 32 bits on the way. */
  function TreeHeight(buckets: nat): nat {
    (FloorLog2(buckets % 0x1_0000_0000) + FloorLog2(W) - 1) / FloorLog2(W)
  }

  /** The height as `gq_init` computes it. */
  method ComputeHeight(buckets: nat) returns (l: nat)
    ensures l == TreeHeight(buckets)
  {
    var logN := LogApprox(buckets % 0x1_0000_0000);
    var logW := LogApprox(W);
    l := (logN + logW - 1) / logW;
  }

  lemma Pow2FiveMore(n: nat)
    ensures Pow2(n + 5) == W * Pow2(n)
  {
    assert Pow2(n + 2) == 4 * Pow2(n);
    assert Pow2(n + 4) == 4 * Pow2(n + 2);
  }

  lemma {:induction false} LeavesArePowers(l: nat)
    ensures Span(1, l) == Pow2(5 * l)
    decreases l
  {
    if l > 0 {
      LeavesArePowers(l - 1);
      SpanStep(1, l - 1);
      Pow2FiveMore(5 * l - 5);
    }
  }

  /**
   For more than one bucket the leaves of the tree cover the buckets exactly when the logarithm is
   not a multiple of 5 or the number of buckets is a power of two. A single bucket gets no tree.
   */
  lemma SizingExact(buckets: nat)
    requires 1 < buckets < 0x1_0000_0000
    ensures TreeHeight(buckets) > 0
    ensures buckets <= Span(1, TreeHeight(buckets)) <==>
            FloorLog2(buckets) % 5 != 0 || buckets == Pow2(FloorLog2(buckets))
  {
    var f, l := FloorLog2(buckets), TreeHeight(buckets);
    FloorLog2Bounds(buckets);
    HeightRoundsUp(buckets);
    LeavesArePowers(l);
    if f % 5 != 0 {
      Pow2Monotone(f + 1, 5 * l);
    }
  }

  /** With 33 buckets the tree gets height 1 and 32 leaves: the last bucket has none. */
  lemma ThirtyThreeBuckets()
    ensures TreeHeight(33) == 1 && Span(1, TreeHeight(33)) == 32
  {
    assert FloorLog2(33) == 5 && FloorLog2(W) == 5;
    SpanStep(1, 0);
  }

  lemma HeightRoundsUp(buckets: nat)
    requires 1 < buckets < 0x1_0000_0000
    ensures var f, l := FloorLog2(buckets), TreeHeight(buckets);
      l > 0 && (if f % 5 == 0 then 5 * l == f else f < 5 * l)
  {
    assert FloorLog2(W) == 5;
    assert Fls(buckets / 2) > 0;
    assert Fls(buckets) == 1 + Fls(buckets / 2);
    CeilFifth(FloorLog2(buckets));
  }

  lemma CeilFifth(f: nat)
    ensures var l := (f + 5 - 1) / 5;
      (if f % 5 == 0 then 5 * l == f else f < 5 * l) && (f > 0 ==> l > 0)
  {
  }

  lemma SingleBucketHasNoTree()
    ensures TreeHeight(1) == 0 && LevelStart(TreeHeight(1)) == 0
  {
    assert FloorLog2(W) == 5;
  }

  /** `s = (w^l - 1) / (w - 1)`, computed by repeated multiplication, is the number of inner nodes. */
  method TreeSize(l: nat) returns (s: nat)
    ensures s == LevelStart(l)
  {
    s := 1;
    var i: nat := 0;
    while i < l
      invariant i <= l && s == Span(1, i)
    {
      SpanStep(1, i);
      s := s * W;
      i := i + 1;
    }
    GeometricSum(l);
    s := (s - 1) / (W - 1);
  }

  lemma {:induction false} GeometricSum(l: nat)
    ensures Span(1, l) == (W - 1) * LevelStart(l) + 1
    decreases l
  {
    if l > 0 {
      GeometricSum(l - 1);
      SpanStep(1, l - 1);
    }
  }

  /** Every stamp within one horizon indexes one of the `horizon / g` buckets exactly when `g` divides the horizon. */
  lemma IndexInBoundsIff(g: nat, horizon: nat)
    requires g > 0 && horizon > 0
    ensures (forall x: nat :: x < horizon ==> Quot(x, g) < Quot(horizon, g)) <==> Times(Quot(horizon, g), g) == horizon
  {
    QuotTimes(horizon, g);
    if Times(Quot(horizon, g), g) == horizon {
      forall x: nat | x < horizon ensures Quot(x, g) < Quot(horizon, g) {
        QuotBelow(x, g, Quot(horizon, g));
      }
    } else {
      QuotUnique(horizon - 1, g, Quot(horizon, g));
    }
  }
}

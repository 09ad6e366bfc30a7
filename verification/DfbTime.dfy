/**
 Time arithmetic of FlowBundler's multi-level calendar queue (kernel/sch_dfb/sch_dfb.c).
 A packet of queue id `q` is rounded up to a slot time; the slot is kept at the level given by
 its trailing zero count, so flows of different rates meet in one bucket.
 MIN_GRAN_SCALE is 0 and times are far below 2^63, so no shift wraps around.
 */
module DfbTime {
  import opened Words

  const QUEUE_NUM: nat := 64
  const BUCKET_NUM: nat := 1024
  const BUCKET_NUM_SCALE: nat := 10
  /** NSEC_PER_SEC * MTU: the byte rate at which one MTU takes one nanosecond. */
  const MAX_RATE: nat := 1_500_000_000_000

  datatype Location = Location(queueId: nat, bucketId: nat)

  /** `dfb_find_queue_index`. */
  function FindQueueIndex(rate: nat): (id: nat)
    ensures id <= 41
  {
    FlsMaxRate();
    FlsMonotone(if rate < MAX_RATE then rate else MAX_RATE, MAX_RATE);
    Fls(MAX_RATE) - Fls(if rate < MAX_RATE then rate else MAX_RATE)
  }

  lemma FlsMaxRate()
    ensures Pow2(40) <= MAX_RATE < 2 * Pow2(40)
    ensures Fls(MAX_RATE) == 41
  {
    assert Pow2(10) == 1024;
    Pow2Sum(10, 10);
    Pow2Sum(20, 20);
    FlsFromBounds(MAX_RATE, 41);
  }

  lemma {:induction false} FlsFromBounds(x: nat, n: nat)
    requires n > 0 && Pow2(n - 1) <= x < Pow2(n)
    ensures Fls(x) == n
    decreases n
  {
    if n > 1 {
      FlsFromBounds(x / 2, n - 1);
    }
  }

  /** `dfb_find_bucket_index`. */
  function FindBucketIndex(q: nat, t: nat): nat {
    Shr(t, q) + 1
  }

  /** The slot time a packet of queue id `q` and send time `t` is rounded up to. */
  function SlotTime(q: nat, t: nat): nat {
    Shl(FindBucketIndex(q, t), q)
  }

  /** A slot is the first multiple of `2^q` after the send time, so later send times get no earlier slots. */
  lemma SlotTimeMonotone(q: nat, s: nat, t: nat)
    requires s <= t
    ensures SlotTime(q, s) <= SlotTime(q, t)
  {
    ShrMonotone(s, t, q);
    var gap := FindBucketIndex(q, t) - FindBucketIndex(q, s);
    ShlSum(FindBucketIndex(q, s), gap, q);
  }

  /** `dfb_find_real_location`. The guard tests `unlikely(x) >= 64`, and `unlikely` yields 0 or 1. */
  function FindRealLocation(q: nat, t: nat): Location {
    var bid := FindBucketIndex(q, t);
    var id := q + Ffs(SetBit(bid, QUEUE_NUM - 1));
    var realId := if (if id != 0 then 1 else 0) >= QUEUE_NUM then QUEUE_NUM - 1 else id;
    Location(realId, FindBucketIndex(realId, t))
  }

  /** The level of a slot time: its trailing zero count. */
  function Level(t: nat): nat {
    if t == 0 then 0 else Ffs(t)
  }

  /** The number of a slot at its own level; the physical bucket is this number modulo 1024. */
  function Number(t: nat): nat {
    Shr(t, Level(t))
  }

  predicate SameBucket(t: nat, u: nat) {
    Level(t) == Level(u) && Number(t) % BUCKET_NUM == Number(u) % BUCKET_NUM
  }

  /** The slot lies at most 1024 buckets of its own level ahead of time `x`, and not behind it. */
  predicate InWindow(t: nat, x: nat) {
    1 <= Number(t) - Shr(x, Level(t)) <= BUCKET_NUM
  }

  lemma SlotTimeBounds(q: nat, t: nat)
    ensures SlotTime(q, t) == MaskLow(t, q) + Pow2(q)
    ensures t < SlotTime(q, t) <= t + Pow2(q)
    ensures q <= Level(SlotTime(q, t))
  {
    MaskLowBounds(t, q);
    ShlSum(Shr(t, q), 1, q);
    ShlIsMultiple(1, q);
    FfsShl(FindBucketIndex(q, t), q);
  }

  /** The bucket numbers of a packet at its queue id and at its slot's level. */
  lemma SlotNumber(q: nat, t: nat)
    ensures Level(SlotTime(q, t)) == q + Ffs(FindBucketIndex(q, t))
    ensures Number(SlotTime(q, t)) == FindBucketIndex(Level(SlotTime(q, t)), t)
    ensures Number(SlotTime(q, t)) % 2 == 1
  {
    var bid, slot := FindBucketIndex(q, t), SlotTime(q, t);
    FfsShl(bid, q);
    CarryAtFfs(Shr(t, q));
    ShrShr(t, q, Ffs(bid));
    ShrShr(slot, q, Ffs(bid));
    ShrShl(bid, q);
    FfsDecomposes(slot);
  }

  /** The location found is the slot's level and its (odd) number there, whatever the queue id. */
  lemma LocationCanonical(q: nat, t: nat)
    requires SlotTime(q, t) < Pow2(QUEUE_NUM)
    ensures FindRealLocation(q, t) == Location(Level(SlotTime(q, t)), Number(SlotTime(q, t)))
    ensures FindRealLocation(q, t).bucketId % 2 == 1
  {
    SlotNumber(q, t);
    SlotTimeBounds(q, t);
    FfsBound(SlotTime(q, t), QUEUE_NUM);
    FfsSetBit(FindBucketIndex(q, t), QUEUE_NUM - 1);
  }

  /** Looking a slot up with any smaller queue id, one granule before the slot, finds it again. */
  lemma LocationFromSmallerId(q: nat, t: nat, h: nat)
    requires SlotTime(q, t) < Pow2(QUEUE_NUM)
    requires h <= Level(SlotTime(q, t))
    ensures Pow2(h) <= SlotTime(q, t)
    ensures SlotTime(h, SlotTime(q, t) - Pow2(h)) == SlotTime(q, t)
    ensures FindRealLocation(h, SlotTime(q, t) - Pow2(h)) == FindRealLocation(q, t)
  {
    var slot := SlotTime(q, t);
    SlotTimeBounds(q, t);
    GranuleBefore(slot, h);
    LocationCanonical(q, t);
    LocationCanonical(h, slot - Pow2(h));
  }

  lemma GranuleBefore(slot: nat, h: nat)
    requires slot > 0 && h <= Level(slot)
    ensures Pow2(h) <= slot
    ensures SlotTime(h, slot - Pow2(h)) == slot
    ensures MaskLow(slot - Pow2(h), h) == slot - Pow2(h)
  {
    var n := Shr(slot, h);
    AlignedBelowFfs(slot, h);
    assert n > 0 by {
      if n == 0 {
        ShlIsMultiple(0, h);
      }
    }
    ShlSum(n - 1, 1, h);
    ShlIsMultiple(1, h);
    ShrShl(n - 1, h);
  }

  /** The window as an interval of times. */
  lemma WindowInterval(t: nat, x: nat)
    requires t > 0
    ensures InWindow(t, x) <==> x < t <= x + Shl(BUCKET_NUM, Level(t))
  {
    var k, m := Level(t), Number(t);
    FfsDecomposes(t);
    ShrBelow(x, m, k);
    if m >= BUCKET_NUM {
      ShrBelow(x, m - BUCKET_NUM, k);
      ShlSum(m - BUCKET_NUM, BUCKET_NUM, k);
    } else {
      ShlSum(m, BUCKET_NUM - m, k);
    }
  }

  /** Rounding the time down to a granule not above the slot's level does not move its window. */
  lemma WindowMasked(t: nat, x: nat, h: nat)
    requires h <= Level(t)
    ensures InWindow(t, MaskLow(x, h)) <==> InWindow(t, x)
  {
    var k := Level(t);
    ShrShr(x, h, k - h);
    ShrShr(MaskLow(x, h), h, k - h);
    ShrShl(Shr(x, h), h);
  }

  /** Within one window the 1024-way wrap is harmless: a physical bucket holds one slot time. */
  lemma BucketDeterminesSlot(t: nat, u: nat, x: nat)
    requires t > 0 && u > 0
    requires InWindow(t, x) && InWindow(u, x)
    requires SameBucket(t, u)
    ensures t == u
  {
    FfsDecomposes(t);
    FfsDecomposes(u);
    SameResidue(Number(t), Number(u), Shr(x, Level(t)));
  }

  lemma SameResidue(a: nat, b: nat, x: nat)
    requires x < a <= x + BUCKET_NUM && x < b <= x + BUCKET_NUM
    requires a % BUCKET_NUM == b % BUCKET_NUM
    ensures a == b
  {
    var i, j := a / BUCKET_NUM, b / BUCKET_NUM;
    assert a - b == BUCKET_NUM * (i - j);
  }

  /** On the grid of `2^h`, the next slot after an aligned time is one granule later. */
  lemma NextOnGrid(t: nat, m: nat, h: nat)
    requires t > 0 && h <= Level(t) && Shl(m, h) < t
    ensures Shl(m + 1, h) <= t
  {
    AlignedBelowFfs(t, h);
    ShrBelow(Shl(m, h), Shr(t, h), h);
    ShrShl(m, h);
    ShlSum(m + 1, Shr(t, h) - (m + 1), h);
  }

  /** The slot a packet lands in, seen from the head time its send time was clamped against. */
  lemma ClampedSlotInWindow(q: nat, s: nat, head: nat)
    requires head <= s <= head + (Pow2(q + BUCKET_NUM_SCALE) - Pow2(q))
    ensures InWindow(SlotTime(q, s), head)
  {
    var slot := SlotTime(q, s);
    SlotTimeBounds(q, s);
    Pow2Scaled(q);
    var k := Level(slot);
    Pow2Monotone(q + BUCKET_NUM_SCALE, k + BUCKET_NUM_SCALE);
    Pow2Scaled(k);
    WindowInterval(slot, head);
  }

  lemma Pow2Scaled(k: nat)
    ensures Pow2(k + BUCKET_NUM_SCALE) == Shl(BUCKET_NUM, k) == 1024 * Pow2(k)
  {
    ShlIsMultiple(BUCKET_NUM, k);
    assert Pow2(k + 2) == 4 * Pow2(k);
    assert Pow2(k + 4) == 4 * Pow2(k + 2);
    assert Pow2(k + 6) == 4 * Pow2(k + 4);
    assert Pow2(k + 8) == 4 * Pow2(k + 6);
    assert Pow2(k + 10) == 4 * Pow2(k + 8);
  }

  /**
   The granularity is within a factor of two of the MTU's transmission time `MAX_RATE / rate`, on
   both sides, and a faster flow never gets a coarser queue.
   */
  lemma GranularityMatchesRate(rate: nat)
    requires 1 <= rate <= MAX_RATE
    ensures Pow2(FindQueueIndex(rate)) * rate < 2 * MAX_RATE
    ensures MAX_RATE < 2 * (Pow2(FindQueueIndex(rate)) * rate)
  {
    FlsMaxRate();
    FlsBounds(rate);
    var f := Fls(rate);
    FlsMonotone(rate, MAX_RATE);
    Pow2Sum(41 - f, f - 1);
    BetweenPowers(Pow2(41 - f), rate, Pow2(f - 1));
  }

  lemma BetweenPowers(a: nat, rate: nat, b: nat)
    requires a > 0 && b <= rate < 2 * b
    ensures a * b <= a * rate < 2 * (a * b)
  {
    assert a * (2 * b) == 2 * (a * b);
    assert a * (rate - b) >= 0 && a * rate == a * b + a * (rate - b);
    assert a * (2 * b - rate) > 0 && a * (2 * b) == a * rate + a * (2 * b - rate);
  }

  lemma QueueIndexAntitone(r: nat, r': nat)
    requires r <= r'
    ensures FindQueueIndex(r') <= FindQueueIndex(r)
  {
    var a, b := if r < MAX_RATE then r else MAX_RATE, if r' < MAX_RATE then r' else MAX_RATE;
    FlsMonotone(a, b);
  }

  lemma {:induction false} Pow2Sum(j: nat, k: nat)
    ensures Pow2(j) * Pow2(k) == Pow2(j + k)
    decreases j
  {
    if j > 0 {
      Pow2Sum(j - 1, k);
      assert Pow2(j) * Pow2(k) == 2 * (Pow2(j - 1) * Pow2(k));
    }
  }
}

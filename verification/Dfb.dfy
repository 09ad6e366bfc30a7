/**
 FlowBundler's multi-level calendar queue (kernel/sch_dfb/sch_dfb.c): 64 levels of 1024 buckets,
 a packet counter per level and a bitmap of the non-empty levels, changed in place. The ghost field
 `slots` is the map from slot time to FIFO the buckets stand for.
 */
module Dfb {
  import opened Words
  import opened Wrappers
  import opened SlotMap
  import opened DfbTime
  import opened DfbSpec

  /** The number of packets queued at level `k` in slots before time `n`. */
  ghost function LevelCount(m: Slots, k: nat, n: nat): nat {
    if n == 0 then 0
    else LevelCount(m, k, n - 1) + (if Level(n - 1) == k then |Fifo(m, n - 1)| else 0)
  }

  lemma {:induction false} LevelCountZero(m: Slots, k: nat, n: nat)
    requires NoEmptySlot(m)
    ensures LevelCount(m, k, n) == 0 <==> forall t :: t in m && t < n ==> Level(t) != k
  {
    if n > 0 {
      LevelCountZero(m, k, n - 1);
      if n - 1 in m && Level(n - 1) == k {
      } else {
        assert forall t :: t in m && t < n && Level(t) == k ==> t < n - 1;
      }
    }
  }

  /** Changing one FIFO changes the count of its level by the difference in length. */
  lemma {:induction false} LevelCountChange(m: Slots, m': Slots, t: nat, k: nat, n: nat)
    requires forall u: nat :: u != t ==> Fifo(m, u) == Fifo(m', u)
    ensures LevelCount(m', k, n) ==
            LevelCount(m, k, n) + (if t < n && Level(t) == k then |Fifo(m', t)| - |Fifo(m, t)| else 0)
  {
    if n > 0 {
      LevelCountChange(m, m', t, k, n - 1);
    }
  }

  /** A bitmap of the occupied levels is zero only for the empty map; its lowest bit is the least level. */
  lemma LowestLevel(m: Slots, bits: nat, n: nat)
    requires NoEmptySlot(m) && Before(m, n)
    requires forall k: nat :: TestBit(bits, k) <==> LevelCount(m, k, n) > 0
    ensures bits == 0 <==> m.Keys == {}
    ensures bits > 0 ==> Ffs(bits) == MinLevel(m)
  {
    if m.Keys != {} {
      var t :| t in m && Level(t) == MinLevel(m);
      LevelCountZero(m, Level(t), n);
      ZeroHasNoBits(Level(t));
    }
    if bits > 0 {
      FfsIsLowestBit(bits);
      LevelCountZero(m, Ffs(bits), n);
    }
  }

  class MultiLevelCalendarQueue {
    const mlcq: array2<seq<Packet>>
    const nPackets: array<nat>
    const queueLimit: nat
    var nPacketsTotal: nat
    var bitmap: nat
    var headTime: nat
    var highestRateQid: nat
    ghost var slots: Slots

    /** The bucket of a live slot holds exactly its FIFO. */
    ghost predicate Stored(t: nat)
      requires mlcq.Length0 == QUEUE_NUM && mlcq.Length1 == BUCKET_NUM
      reads this`slots, mlcq
    {
      t in slots && 0 < t < 2 * TimeLimit() && Level(t) < QUEUE_NUM
      && mlcq[Level(t), Number(t) % BUCKET_NUM] == slots[t]
    }

    /** A bucket is empty unless it belongs to a live slot. */
    ghost predicate Owned(k: nat, b: nat)
      requires mlcq.Length0 == QUEUE_NUM && mlcq.Length1 == BUCKET_NUM
      reads this`slots, mlcq
    {
      k < QUEUE_NUM && b < BUCKET_NUM && mlcq[k, b] != [] ==>
        exists t :: t in slots && Level(t) == k && Number(t) % BUCKET_NUM == b
    }

    /** The non-empty buckets are exactly the FIFOs of the live slots, one slot each. */
    ghost predicate BucketsMatch()
      reads this`slots, mlcq
    {
      && mlcq.Length0 == QUEUE_NUM && mlcq.Length1 == BUCKET_NUM
      && NoEmptySlot(slots)
      && (forall t {:trigger Stored(t)} :: t in slots ==> Stored(t))
      && (forall t, u {:trigger SameBucket(t, u)} :: t in slots && u in slots && SameBucket(t, u) ==> t == u)
      && (forall k: nat, b: nat {:trigger Owned(k, b)} :: Owned(k, b))
    }

    ghost predicate CountersMatch()
      reads this`slots, this`nPacketsTotal, this`bitmap, nPackets
    {
      && nPackets.Length == QUEUE_NUM
      && nPacketsTotal == |Order(slots)|
      && (forall k :: 0 <= k < QUEUE_NUM ==> nPackets[k] == LevelCount(slots, k, 2 * TimeLimit()))
      && (forall k: nat :: TestBit(bitmap, k) <==> LevelCount(slots, k, 2 * TimeLimit()) > 0)
    }

    ghost predicate Shape()
      reads this`slots, this`nPacketsTotal, this`bitmap, mlcq, nPackets
    {
      BucketsMatch() && CountersMatch()
    }

    ghost function State(): Calendar
      reads this
    {
      Calendar(slots, headTime, highestRateQid)
    }

    ghost predicate Valid()
      reads this, mlcq, nPackets
    {
      Shape() && Inv(State())
    }

    constructor (limit: nat, now: nat)
      requires now < TimeLimit()
      ensures Valid() && fresh(mlcq) && fresh(nPackets)
      ensures State() == Calendar(map[], now, QUEUE_NUM - 1) && queueLimit == limit
    {
      mlcq := new seq<Packet>[QUEUE_NUM, BUCKET_NUM]((_, _) => []);
      nPackets := new nat[QUEUE_NUM](_ => 0);
      queueLimit := limit;
      nPacketsTotal, bitmap, headTime, highestRateQid := 0, 0, now, QUEUE_NUM - 1;
      slots := map[];
      new;
      OrderEmpty(slots);
      forall k: nat ensures LevelCount(slots, k, 2 * TimeLimit()) == 0 && !TestBit(0, k) {
        LevelCountZero(slots, k, 2 * TimeLimit());
        ZeroHasNoBits(k);
      }
    }

    lemma BitmapZero()
      requires Shape()
      ensures bitmap == 0 <==> slots.Keys == {}
      ensures bitmap > 0 ==> Ffs(bitmap) == MinLevel(slots)
    {
      forall t | t in slots ensures t < 2 * TimeLimit() {
        assert Stored(t);
      }
      LowestLevel(slots, bitmap, 2 * TimeLimit());
    }

    /** What the bucket of slot `t` holds: its FIFO if it is live, nothing otherwise. */
    lemma BucketOf(t: nat)
      requires BucketsMatch() && Level(t) < QUEUE_NUM
      requires forall u :: u in slots && SameBucket(t, u) ==> t == u
      ensures mlcq[Level(t), Number(t) % BUCKET_NUM] == Fifo(slots, t)
    {
      if t in slots {
        assert Stored(t);
      } else {
        assert Owned(Level(t), Number(t) % BUCKET_NUM);
      }
    }

    /** After the bucket of slot `t` was given the new FIFO of `t`, the buckets match again. */
    twostate lemma BucketsAfter(t: nat)
      requires old(BucketsMatch()) && mlcq.Length0 == QUEUE_NUM && mlcq.Length1 == BUCKET_NUM
      requires 0 < t < 2 * TimeLimit() && Level(t) < QUEUE_NUM && NoEmptySlot(slots)
      requires forall u :: u in old(slots) && SameBucket(t, u) ==> t == u
      requires forall u: nat :: u != t ==> (u in slots <==> u in old(slots)) && Fifo(slots, u) == old(Fifo(slots, u))
      requires mlcq[Level(t), Number(t) % BUCKET_NUM] == Fifo(slots, t)
      requires forall k: nat, b: nat :: k < QUEUE_NUM && b < BUCKET_NUM && (k != Level(t) || b != Number(t) % BUCKET_NUM) ==>
        mlcq[k, b] == old(mlcq[k, b])
      ensures BucketsMatch()
    {
      forall u | u in slots ensures Stored(u) {
        if u != t {
          assert old(Stored(u));
          assert !SameBucket(t, u);
        }
      }
      forall u, v | u in slots && v in slots && SameBucket(u, v) ensures u == v {
        assert SameBucket(v, u);
      }
      forall k: nat, b: nat ensures Owned(k, b) {
        assert old(Owned(k, b));
        if k < QUEUE_NUM && b < BUCKET_NUM && mlcq[k, b] != [] {
          if k == Level(t) && b == Number(t) % BUCKET_NUM {
            assert t in slots;
          } else {
            var u :| u in old(slots) && Level(u) == k && Number(u) % BUCKET_NUM == b;
            assert u in slots;
          }
        }
      }
    }

    /** `dfb_push_to_bucket`, into the bucket of slot `t`. */
    method PushToBucket(location: Location, skb: Packet, ghost t: nat)
      requires Shape() && 0 < t < 2 * TimeLimit()
      requires location == Location(Level(t), Number(t)) && location.queueId < QUEUE_NUM
      requires forall u :: u in slots && SameBucket(t, u) ==> t == u
      modifies this`slots, this`nPacketsTotal, this`bitmap, mlcq, nPackets
      ensures Shape()
      ensures slots == Insert(old(slots), t, skb)
    {
      var k, b := location.queueId, location.bucketId % BUCKET_NUM;
      ghost var before := slots;
      BucketOf(t);
      OrderInsert(before, t, skb, End(before) + t + 1);
      mlcq[k, b] := mlcq[k, b] + [skb];
      nPackets[k] := nPackets[k] + 1;
      nPacketsTotal := nPacketsTotal + 1;
      bitmap := SetBit(bitmap, k);
      slots := Insert(slots, t, skb);
      BucketsAfter(t);
      CountersAfter(before, old(bitmap), t, true);
    }

    /** `dfb_pop_from_bucket`, from the bucket of slot `t`, which need not be live. */
    method PopFromBucket(location: Location, ghost t: nat) returns (skb: Option<Packet>)
      requires Shape() && 0 < t < 2 * TimeLimit()
      requires location == Location(Level(t), Number(t)) && location.queueId < QUEUE_NUM
      requires forall u :: u in slots && SameBucket(t, u) ==> t == u
      modifies this`slots, this`nPacketsTotal, this`bitmap, mlcq, nPackets
      ensures Shape()
      ensures skb.Some? <==> t in old(slots)
      ensures skb.None? ==> slots == old(slots)
      ensures skb.Some? ==> old(slots)[t] != [] && skb.value == old(slots)[t][0]
                            && slots == RemoveFirst(old(slots), t)
    {
      var k, b := location.queueId, location.bucketId % BUCKET_NUM;
      ghost var before := slots;
      BucketOf(t);
      if mlcq[k, b] == [] {
        return None;
      }
      skb := Some(mlcq[k, b][0]);
      LevelCountZero(before, k, 2 * TimeLimit());
      OrderRemove(before, t);
      RemoveFirstFifo(before, t);
      mlcq[k, b] := mlcq[k, b][1..];
      nPackets[k] := nPackets[k] - 1;
      if nPackets[k] == 0 {
        bitmap := ClearBit(bitmap, k);
      }
      nPacketsTotal := nPacketsTotal - 1;
      slots := RemoveFirst(slots, t);
      BucketsAfter(t);
      CountersAfter(before, old(bitmap), t, false);
    }

    /** The counters after one FIFO gained or lost a packet. */
    lemma CountersAfter(before: Slots, bits: nat, t: nat, pushed: bool)
      requires nPackets.Length == QUEUE_NUM && NoEmptySlot(before) && NoEmptySlot(slots)
      requires 0 < t < 2 * TimeLimit() && Level(t) < QUEUE_NUM
      requires nPacketsTotal == |Order(slots)|
      requires forall u: nat :: u != t ==> Fifo(before, u) == Fifo(slots, u)
      requires |Fifo(slots, t)| == |Fifo(before, t)| + if pushed then 1 else -1
      requires forall k: nat :: TestBit(bits, k) <==> LevelCount(before, k, 2 * TimeLimit()) > 0
      requires forall k :: 0 <= k < QUEUE_NUM ==>
        nPackets[k] == LevelCount(before, k, 2 * TimeLimit())
                       + if k != Level(t) then 0 else if pushed then 1 else -1
      requires bitmap == if pushed then SetBit(bits, Level(t))
                         else if nPackets[Level(t)] == 0 then ClearBit(bits, Level(t)) else bits
      ensures CountersMatch()
    {
      var n := 2 * TimeLimit();
      forall k: nat
        ensures LevelCount(slots, k, n) == LevelCount(before, k, n)
                                           + if k != Level(t) then 0 else if pushed then 1 else -1
      {
        LevelCountChange(before, slots, t, k, n);
      }
      forall k: nat ensures TestBit(bitmap, k) <==> LevelCount(slots, k, n) > 0 {
        SetBitBits(bits, Level(t), k);
        ClearBitBits(bits, Level(t), k);
      }
    }

    /** `dfb_enqueue_to_cq`. */
    method EnqueueToCq(skb: Packet, queueId: nat)
      requires Shape() && Inv(State()) && skb.stamp < TimeLimit() && queueId <= 41
      requires highestRateQid <= queueId
      modifies this, mlcq, nPackets
      ensures Shape() && Inv(State())
      ensures State() == EnqueueSpec(old(State()), queueId, skb)
    {
      ghost var c := State();
      ghost var next, t := ArrivalSlot(c, queueId, skb);
      BitmapZero();
      if bitmap == 0 {
        headTime := MaskLow(skb.stamp, queueId);
        highestRateQid := queueId;
      }
      assert headTime == next.head && highestRateQid == next.h;
      var sendTime := Clamp(skb.stamp, headTime, headTime + Horizon(queueId));
      var realLoc := FindRealLocation(queueId, sendTime);
      PushToBucket(realLoc, skb, t);
      assert State() == next;
    }

    /** The paced path of `dfb_enqueue` for the rate it settled on. */
    method Enqueue(skb: Packet, rate: nat) returns (accepted: bool)
      requires Valid() && skb.stamp < TimeLimit()
      modifies this, mlcq, nPackets
      ensures Valid()
      ensures accepted <==> Accepts(old(State()), queueLimit)
      ensures accepted ==> State() == EnqueueSpec(old(State()), FindQueueIndex(rate), skb)
      ensures !accepted ==> State() == old(State())
    {
      if nPacketsTotal >= queueLimit {
        return false;
      }
      var qid := FindQueueIndex(rate);
      LowerRate(State(), qid, skb);
      highestRateQid := if qid < highestRateQid then qid else highestRateQid;
      EnqueueToCq(skb, qid);
      accepted := true;
    }

    /** The bucket that the scan looks at from grid point `m`. */
    lemma CandidateBucket(c: Calendar, m: nat)
      requires BucketsMatch() && ScanAt(c, m) && slots == c.slots
      ensures var location := FindRealLocation(c.h, Shl(m, c.h));
        && location.queueId < QUEUE_NUM
        && mlcq[location.queueId, location.bucketId % BUCKET_NUM] == Fifo(slots, SlotTime(c.h, Shl(m, c.h)))
    {
      CandidateSlot(c, m);
      BucketOf(SlotTime(c.h, Shl(m, c.h)));
    }

    /** The second scan of `dfb_dequeue`: from grid point `m` to the release of the least slot. */
    method FindNextTime(ghost c: Calendar, head: nat, ghost m0: nat) returns (nextTime: nat)
      requires BucketsMatch() && ScanAt(c, m0) && head == Shl(m0, c.h)
      requires slots == c.slots && highestRateQid == c.h
      ensures nextTime == Release(MinSlot(slots), highestRateQid)
    {
      var h := highestRateQid;
      var granularity := Pow2(h);
      ghost var m := m0;
      nextTime := head;
      CandidateBucket(c, m);
      var realLoc := FindRealLocation(h, nextTime);
      while mlcq[realLoc.queueId, realLoc.bucketId % BUCKET_NUM] == []
        invariant ScanAt(c, m) && nextTime == Shl(m, h)
        invariant realLoc.queueId < QUEUE_NUM
        invariant mlcq[realLoc.queueId, realLoc.bucketId % BUCKET_NUM] == Fifo(slots, SlotTime(h, nextTime))
        decreases Release(MinSlot(c.slots), h) - nextTime
      {
        ScanAdvances(c, m);
        nextTime := nextTime + granularity;
        m := m + 1;
        CandidateBucket(c, m);
        realLoc := FindRealLocation(h, nextTime);
      }
      ScanFinds(c, m);
    }

    /** After a pop at rate level `h`: move to the next occupied level if `h` ran empty. */
    method RaiseHighestRate(ghost before: Slots, ghost t: nat)
      requires Shape() && highestRateQid < QUEUE_NUM
      requires t in before && before[t] != [] && slots == RemoveFirst(before, t)
      requires forall u :: u in before ==> highestRateQid <= Level(u)
      modifies this`highestRateQid
      ensures highestRateQid == MinLevel(slots)
    {
      BitmapZero();
      if nPackets[highestRateQid] == 0 {
        highestRateQid := if bitmap != 0 then Ffs(bitmap) else QUEUE_NUM - 1;
      } else {
        LevelStaysLeast(before, slots, t, highestRateQid, 2 * TimeLimit());
      }
    }

    /** The first scan of `dfb_dequeue`: pop from the first grid point not after `now` that has a packet. */
    method ScanDue(ghost c: Calendar, now: nat) returns (skb: Option<Packet>, head: nat, ghost m: nat)
      requires Shape() && Inv(c) && c == State() && slots.Keys != {}
      modifies this`slots, this`nPacketsTotal, this`bitmap, mlcq, nPackets
      ensures Shape() && head == Shl(m, c.h) && ScanAt(c, m)
      ensures skb.None? ==> slots == c.slots && now < head
      ensures skb.Some? ==> head <= now && PoppedAt(c, m, skb.value, slots)
    {
      var h := highestRateQid;
      var granularity := Pow2(h);
      head, m := MaskLow(headTime, h), Shr(headTime, h);
      ScanStarts(c);
      while now >= head
        invariant slots == c.slots && Shape()
        invariant ScanAt(c, m) && head == Shl(m, h)
        decreases Release(MinSlot(c.slots), h) - head
      {
        CandidateSlot(c, m);
        var realLoc := FindRealLocation(h, head);
        skb := PopFromBucket(realLoc, SlotTime(h, head));
        if skb.Some? {
          return;
        }
        ScanAdvances(c, m);
        head := head + granularity;
        m := m + 1;
      }
      skb := None;
    }

    /** No packet is due: `dfb_dequeue` moves the head to `now` and looks for the next slot. */
    method Arm(ghost c: Calendar, head: nat, ghost m: nat, now: nat) returns (watchdog: Option<nat>)
      requires Shape() && ScanAt(c, m) && head == Shl(m, c.h) && State() == c
      modifies this`headTime
      ensures Shape() && State() == c.(head := MaskLow(now, c.h)) && watchdog == Some(Release(MinSlot(c.slots), c.h))
    {
      headTime := MaskLow(now, highestRateQid);
      var nextTime := FindNextTime(c, head, m);
      watchdog := Some(nextTime);
    }

    /** `dfb_dequeue`: the scan for a due packet and, when none is due, for the next watchdog time. */
    method Dequeue(now: nat) returns (skb: Option<Packet>, watchdog: Option<nat>)
      requires Valid() && now < TimeLimit()
      modifies this, mlcq, nPackets
      ensures Shape()
      ensures DequeueSpec(old(State()), now) == Served(State(), skb, watchdog)
      ensures Valid() <==> RewindSafe(old(State()), now)
    {
      ghost var c := State();
      ghost var served := DequeueSpec(c, now);
      DequeueKeepsInvIff(c, now);
      BitmapZero();
      if bitmap == 0 {
        return None, None;
      }
      var head: nat;
      ghost var m: nat;
      skb, head, m := ScanDue(c, now);
      if skb.Some? {
        PopIsSpec(c, m, now, skb.value, slots);
        headTime := head;
        RaiseHighestRate(c.slots, MinSlot(c.slots));
        assert State() == served.next;
        return skb, None;
      }
      watchdog := Arm(c, head, m, now);
      IdleIsSpec(c, m, now);
    }
  }

  /** What `dfb_enqueue_to_cq` finds for a packet: the location of a slot of its own. */
  lemma ArrivalSlot(c: Calendar, q: nat, p: Packet) returns (next: Calendar, t: nat)
    requires Inv(c) && p.stamp < TimeLimit() && q <= 41 && c.h <= q
    ensures next == EnqueueSpec(c, q, p) && Inv(next)
    ensures next.slots == Insert(c.slots, t, p)
    ensures if c.slots.Keys == {} then next.head == MaskLow(p.stamp, q) && next.h == q
            else next.head == c.head && next.h == c.h
    ensures 0 < t < 2 * TimeLimit() && Level(t) < QUEUE_NUM
    ensures FindRealLocation(q, Clamp(p.stamp, next.head, next.head + Horizon(q))) == Location(Level(t), Number(t))
    ensures forall u :: u in c.slots && SameBucket(t, u) ==> t == u
  {
    next := EnqueueSpec(c, q, p);
    var s := Clamped(c, q, p);
    t := SlotTime(q, s);
    EnqueueKeepsInv(c, q, p);
    if c.slots.Keys == {} {
      assert c.slots == map[];
    }
    assert t in next.slots && SlotOk(next, t);
    SlotLevel(t);
    LocationCanonical(q, s);
    forall u | u in c.slots && SameBucket(t, u) ensures t == u {
      assert u in next.slots;
      NoAliasing(next, t, u);
    }
  }

  /** Taking the minimum with the packet's own id first changes neither the invariant nor the result. */
  lemma LowerRate(c: Calendar, q: nat, p: Packet)
    requires Inv(c)
    ensures var c' := c.(h := if q < c.h then q else c.h); Inv(c') && EnqueueSpec(c', q, p) == EnqueueSpec(c, q, p)
  {
    forall t | t in c.slots ensures SlotOk(c.(h := if q < c.h then q else c.h), t) {
      assert SlotOk(c, t);
    }
  }

  // ----- the scan of dfb_dequeue -----

  /** Grid point `m` of the scan lies between the masked head and the release of the least slot. */
  ghost predicate ScanAt(c: Calendar, m: nat) {
    && Inv(c) && c.slots.Keys != {}
    && MaskLow(c.head, c.h) <= Shl(m, c.h) <= Release(MinSlot(c.slots), c.h)
  }

  lemma ScanStarts(c: Calendar)
    requires Inv(c) && c.slots.Keys != {}
    ensures ScanAt(c, Shr(c.head, c.h))
  {
    HeadBeforeRelease(c, MinSlot(c.slots));
  }

  /** What the scan looks at from grid point `m`: the slot one granule later, alone in its bucket. */
  lemma CandidateSlot(c: Calendar, m: nat)
    requires ScanAt(c, m)
    ensures var t := SlotTime(c.h, Shl(m, c.h));
      && t == Shl(m, c.h) + Pow2(c.h)
      && 0 < t <= MinSlot(c.slots)
      && t < 2 * TimeLimit()
      && FindRealLocation(c.h, Shl(m, c.h)) == Location(Level(t), Number(t))
      && Level(t) < QUEUE_NUM
      && (forall u :: u in c.slots && SameBucket(t, u) ==> t == u)
  {
    var head, least := Shl(m, c.h), MinSlot(c.slots);
    var t := SlotTime(c.h, head);
    SlotTimeBounds(c.h, head);
    ShrShl(m, c.h);
    assert SlotOk(c, least);
    GranuleBefore(least, c.h);
    SlotLevel(least);
    SlotLevel(t);
    LocationCanonical(c.h, head);
    Pow2Monotone(c.h, Level(t));
    Pow2Scaled(Level(t));
    WindowInterval(t, head);
    forall u | u in c.slots && SameBucket(t, u) ensures t == u {
      assert SlotOk(c, u);
      WindowMasked(u, c.head, c.h);
      WindowInterval(u, MaskLow(c.head, c.h));
      WindowInterval(u, head);
      BucketDeterminesSlot(t, u, head);
    }
  }

  /** If the candidate is not live, the scan may step on without passing the least slot. */
  lemma ScanAdvances(c: Calendar, m: nat)
    requires ScanAt(c, m) && SlotTime(c.h, Shl(m, c.h)) !in c.slots
    ensures ScanAt(c, m + 1) && Shl(m + 1, c.h) == Shl(m, c.h) + Pow2(c.h)
  {
    var h, least := c.h, MinSlot(c.slots);
    assert SlotOk(c, least);
    CandidateSlot(c, m);
    GranuleBefore(least, h);
    ShlSum(m, 1, h);
    ShlIsMultiple(1, h);
    NextOnGrid(least, m + 1, h);
    ShlSum(m + 1, 1, h);
  }

  /** If the candidate is live, it is the least slot and this grid point is its release. */
  lemma ScanFinds(c: Calendar, m: nat)
    requires ScanAt(c, m) && SlotTime(c.h, Shl(m, c.h)) in c.slots
    ensures SlotTime(c.h, Shl(m, c.h)) == MinSlot(c.slots)
    ensures Shl(m, c.h) == Release(MinSlot(c.slots), c.h)
  {
    CandidateSlot(c, m);
  }

  /** `skb` was taken from the candidate slot of grid point `m`, leaving `slots`. */
  ghost predicate PoppedAt(c: Calendar, m: nat, skb: Packet, slots: Slots) {
    var t := SlotTime(c.h, Shl(m, c.h));
    t in c.slots && c.slots[t] != [] && skb == c.slots[t][0] && slots == RemoveFirst(c.slots, t)
  }

  lemma PopIsSpec(c: Calendar, m: nat, now: nat, skb: Packet, slots: Slots)
    requires ScanAt(c, m) && Shl(m, c.h) <= now && PoppedAt(c, m, skb, slots)
    ensures PoppedAt(c, m, skb, slots) && SlotTime(c.h, Shl(m, c.h)) == MinSlot(c.slots)
    ensures forall u :: u in c.slots ==> c.h <= Level(u)
    ensures DequeueSpec(c, now) == Served(Calendar(slots, Shl(m, c.h), MinLevel(slots)), Some(skb), None)
  {
    ScanFinds(c, m);
    forall u | u in c.slots ensures c.h <= Level(u) {
      assert SlotOk(c, u);
    }
  }

  lemma IdleIsSpec(c: Calendar, m: nat, now: nat)
    requires ScanAt(c, m) && now < Shl(m, c.h)
    ensures DequeueSpec(c, now) ==
            Served(c.(head := MaskLow(now, c.h)), None, Some(Release(MinSlot(c.slots), c.h)))
  {
  }

  /** A level that was a lower bound and still holds a packet is the least level. */
  lemma LevelStaysLeast(m: Slots, m': Slots, t: nat, k: nat, n: nat)
    requires t in m && m[t] != [] && m' == RemoveFirst(m, t)
    requires NoEmptySlot(m') && forall u :: u in m ==> k <= Level(u)
    requires LevelCount(m', k, n) > 0
    ensures MinLevel(m') == k
  {
    LevelCountZero(m', k, n);
  }
}

/**
 FlowBundler's calendar queue as a sorted map from slot time to FIFO: what enqueue and dequeue do
 to that map, without buckets, wrap-around or scanning (kernel/sch_dfb/sch_dfb.c:337-636).
 Module Dfb proves that the bucket implementation refines this.
 */
module DfbSpec {
  import opened Words
  import opened Wrappers
  import opened SlotMap
  import opened DfbTime

  /** `head` is `head_time`, `h` is `highest_rate_qid`. */
  datatype Calendar = Calendar(slots: Slots, head: nat, h: nat)

  datatype Served = Served(next: Calendar, packet: Option<Packet>, watchdog: Option<nat>)

  /** Times are far below 2^63. */
  function TimeLimit(): nat {
    Pow2(62)
  }

  /** The smallest level holding a packet; `QUEUE_NUM - 1` when there is none. */
  ghost function MinLevel(m: Slots): (k: nat)
    ensures m.Keys == {} ==> k == QUEUE_NUM - 1
    ensures m.Keys != {} ==> exists t :: t in m && Level(t) == k
    ensures forall t :: t in m ==> k <= Level(t)
  {
    if m.Keys == {} then QUEUE_NUM - 1
    else
      var x :| x in m.Keys;
      LeastLevelExists(m, x, Level(x));
      var t :| t in m && forall u :: u in m ==> Level(t) <= Level(u);
      Level(t)
  }

  lemma {:induction false} LeastLevelExists(m: Slots, x: nat, n: nat)
    requires x in m && Level(x) <= n
    ensures exists t :: t in m && forall u :: u in m ==> Level(t) <= Level(u)
    decreases n
  {
    if u :| u in m && Level(u) < Level(x) {
      LeastLevelExists(m, u, n - 1);
    }
  }

  /** The first instant at which a slot is popped when scanning in steps of `2^h`. */
  function Release(t: nat, h: nat): nat {
    if Pow2(h) <= t then t - Pow2(h) else 0
  }

  function Clamp(x: nat, lo: nat, hi: nat): nat {
    if x < lo then lo else if x > hi then hi else x
  }

  /** `horizon` in `dfb_enqueue_to_cq`: all but one of the 1024 granules of queue id `q`. */
  function Horizon(q: nat): nat {
    Pow2Monotone(q, q + BUCKET_NUM_SCALE);
    Pow2(q + BUCKET_NUM_SCALE) - Pow2(q)
  }

  /** The calendar a packet of queue id `q` meets: the first packet sets the head time. */
  ghost function Prepared(c: Calendar, q: nat, p: Packet): Calendar {
    if c.slots.Keys == {} then Calendar(map[], MaskLow(p.stamp, q), q)
    else c.(h := if q < c.h then q else c.h)
  }

  /** The send time after clamping to the calendar's horizon for queue id `q`. */
  ghost function Clamped(c: Calendar, q: nat, p: Packet): nat {
    var head := Prepared(c, q, p).head;
    Clamp(p.stamp, head, head + Horizon(q))
  }

  ghost function EnqueueSpec(c: Calendar, q: nat, p: Packet): Calendar {
    var c' := Prepared(c, q, p);
    c'.(slots := Insert(c'.slots, SlotTime(q, Clamped(c, q, p)), p))
  }

  ghost predicate Due(c: Calendar, now: nat) {
    c.slots.Keys != {} && Release(MinSlot(c.slots), c.h) <= now
  }

  ghost function DequeueSpec(c: Calendar, now: nat): Served
    requires NoEmptySlot(c.slots)
  {
    if c.slots.Keys == {} then Served(c, None, None)
    else
      var t := MinSlot(c.slots);
      if Due(c, now) then
        var slots := RemoveFirst(c.slots, t);
        Served(Calendar(slots, Release(t, c.h), MinLevel(slots)), Some(c.slots[t][0]), None)
      else
        Served(c.(head := MaskLow(now, c.h)), None, Some(Release(t, c.h)))
  }

  ghost predicate SlotOk(c: Calendar, t: nat) {
    && 0 < t < 2 * TimeLimit()
    && c.h <= Level(t)
    && InWindow(t, c.head)
  }

  /** The window invariant: every live slot lies in the 1024 buckets ahead of the head time. */
  ghost predicate Inv(c: Calendar) {
    && c.head < TimeLimit()
    && c.h < QUEUE_NUM
    && NoEmptySlot(c.slots)
    && forall t :: t in c.slots ==> SlotOk(c, t)
  }

  /** Either the head time is not in the future, or every live slot is within reach of `now`. */
  ghost predicate RewindSafe(c: Calendar, now: nat) {
    || MaskLow(c.head, c.h) <= now
    || forall t :: t in c.slots ==> t <= now + Shl(BUCKET_NUM, Level(t))
  }

  lemma SlotLevel(t: nat)
    requires 0 < t < 2 * TimeLimit()
    ensures Level(t) < QUEUE_NUM - 1 && t < Pow2(QUEUE_NUM)
  {
    assert 2 * TimeLimit() == Pow2(63);
    FfsBound(t, 63);
  }

  /** Distinct live slots never share a physical bucket. */
  lemma NoAliasing(c: Calendar, t: nat, u: nat)
    requires Inv(c) && t in c.slots && u in c.slots
    ensures SameBucket(t, u) ==> t == u
  {
    assert SlotOk(c, t) && SlotOk(c, u);
    if SameBucket(t, u) {
      BucketDeterminesSlot(t, u, c.head);
    }
  }

  lemma ClampedBounds(c: Calendar, q: nat, p: Packet)
    requires Inv(c) && p.stamp < TimeLimit()
    ensures Prepared(c, q, p).head < TimeLimit()
    ensures Prepared(c, q, p).head <= Clamped(c, q, p) < TimeLimit()
    ensures Clamped(c, q, p) <= Prepared(c, q, p).head + Horizon(q)
  {
    MaskLowBounds(p.stamp, q);
    Pow2Monotone(q, q + BUCKET_NUM_SCALE);
  }

  /**
   What an enqueue does, in full. The packet joins the FIFO of the slot of its own send time if that lies within
   the 1023 granules from the head time on, else of the nearer end. The first packet sets the head time and the scan.
   */
  lemma EnqueueSets(c: Calendar, q: nat, p: Packet)
    ensures var first := c.slots.Keys == {};
      var head := if first then MaskLow(p.stamp, q) else c.head;
      var last := head + 1023 * Pow2(q);
      var t := SlotTime(q, if p.stamp < head then head else if p.stamp <= last then p.stamp else last);
      && EnqueueSpec(c, q, p).slots == c.slots[t := Fifo(c.slots, t) + [p]]
      && EnqueueSpec(c, q, p).head == head
      && EnqueueSpec(c, q, p).h == if first || q < c.h then q else c.h
  {
    Pow2Scaled(q);
    if c.slots.Keys == {} {
      assert c.slots == map[];
      MaskLowBounds(p.stamp, q);
    }
  }

  /** Of two packets of one queue id, the later one never gets the earlier slot. */
  lemma LaterNotBefore(c: Calendar, q: nat, p: Packet, later: Packet) returns (t: nat, u: nat)
    requires p.stamp <= later.stamp
    ensures EnqueueSpec(c, q, p).slots == c.slots[t := Fifo(c.slots, t) + [p]]
    ensures EnqueueSpec(c, q, later).slots == c.slots[u := Fifo(c.slots, u) + [later]]
    ensures t <= u
  {
    t, u := SlotTime(q, Clamped(c, q, p)), SlotTime(q, Clamped(c, q, later));
    if c.slots.Keys == {} {
      assert c.slots == map[];
      Pow2Scaled(q);
      MaskLowBounds(p.stamp, q);
      MaskLowBounds(later.stamp, q);
    }
    SlotTimeMonotone(q, Clamped(c, q, p), Clamped(c, q, later));
  }

  lemma EnqueueKeepsInv(c: Calendar, q: nat, p: Packet)
    requires Inv(c) && q <= 41 && p.stamp < TimeLimit()
    ensures Inv(EnqueueSpec(c, q, p))
  {
    var c', s := Prepared(c, q, p), Clamped(c, q, p);
    ClampedBounds(c, q, p);
    SlotTimeBounds(q, s);
    ClampedSlotInWindow(q, s, c'.head);
    Pow2Monotone(q, 62);
    var next := EnqueueSpec(c, q, p);
    forall t | t in next.slots ensures SlotOk(next, t) {
      if t != SlotTime(q, s) {
        assert SlotOk(c, t);
      }
    }
  }

  /** An idle dequeue moves the head to `now`; the window survives exactly when that is in reach. */
  lemma SlotAfterRewind(c: Calendar, now: nat, t: nat)
    requires Inv(c) && t in c.slots && !Due(c, now)
    ensures InWindow(t, MaskLow(now, c.h)) <==> t <= now + Shl(BUCKET_NUM, Level(t))
    ensures MaskLow(c.head, c.h) <= now ==> InWindow(t, MaskLow(now, c.h))
  {
    assert SlotOk(c, t) && SlotOk(c, MinSlot(c.slots));
    GranuleBefore(MinSlot(c.slots), c.h);
    assert now < t;
    WindowMasked(t, now, c.h);
    WindowInterval(t, now);
    WindowMasked(t, c.head, c.h);
    WindowInterval(t, MaskLow(c.head, c.h));
  }

  lemma PopKeepsInv(c: Calendar, now: nat)
    requires Inv(c) && Due(c, now) && now < TimeLimit()
    ensures Inv(DequeueSpec(c, now).next)
    ensures MaskLow(c.head, c.h) <= Release(MinSlot(c.slots), c.h) <= now
  {
    var least, next := MinSlot(c.slots), DequeueSpec(c, now).next;
    assert SlotOk(c, least);
    GranuleBefore(least, c.h);
    HeadBeforeRelease(c, least);
    OrderRemoveMin(c.slots);
    forall t | t in next.slots ensures SlotOk(next, t) {
      assert SlotOk(c, t);
      WindowMasked(t, c.head, c.h);
      WindowInterval(t, MaskLow(c.head, c.h));
      WindowInterval(t, next.head);
      SlotLevel(t);
    }
    if next.slots.Keys != {} {
      var t :| t in next.slots && Level(t) == next.h;
      SlotLevel(t);
    }
  }

  lemma HeadBeforeRelease(c: Calendar, t: nat)
    requires Inv(c) && t in c.slots
    ensures MaskLow(c.head, c.h) <= Release(t, c.h) < t
  {
    assert SlotOk(c, t);
    GranuleBefore(t, c.h);
    MaskLowBounds(c.head, c.h);
    WindowInterval(t, c.head);
    NextOnGrid(t, Shr(c.head, c.h), c.h);
    ShlSum(Shr(c.head, c.h), 1, c.h);
    ShlIsMultiple(1, c.h);
  }

  /** The window invariant survives a dequeue exactly when the dequeue does not rewind too far. */
  lemma DequeueKeepsInvIff(c: Calendar, now: nat)
    requires Inv(c) && now < TimeLimit()
    ensures Inv(DequeueSpec(c, now).next) <==> RewindSafe(c, now)
  {
    if c.slots.Keys == {} {
    } else if Due(c, now) {
      PopKeepsInv(c, now);
    } else {
      var next := DequeueSpec(c, now).next;
      MaskLowBounds(now, c.h);
      forall t | t in c.slots
        ensures SlotOk(next, t) <==> t <= now + Shl(BUCKET_NUM, Level(t))
        ensures MaskLow(c.head, c.h) <= now ==> SlotOk(next, t)
      {
        assert SlotOk(c, t);
        SlotAfterRewind(c, now, t);
      }
    }
  }

  /**
   The unguarded rewind of sch_dfb.c:609 breaks the window. A packet sent at 10000 starts the
   calendar, a dequeue at time 0 moves the head back to 0, and a packet sent at 784 then joins the
   bucket of the first: one bucket now holds two slot times 9216 ns apart.
   */
  lemma RewindSharesBucket(c: Calendar, p: Packet, early: Packet)
    requires c == Calendar(map[], 0, 63) && p.stamp == 10000 && early.stamp == 784
    ensures Inv(c) && Inv(EnqueueSpec(c, 0, p))
    ensures var rewound := DequeueSpec(EnqueueSpec(c, 0, p), 0).next;
      && !Inv(rewound)
      && var both := EnqueueSpec(rewound, 0, early).slots;
         && both.Keys == {785, 10001}
         && SameBucket(785, 10001)
  {
    assert TimeLimit() > 0x10000 by {
      Pow2Monotone(17, 62);
      assert Pow2(17) == 0x20000 by {
        assert Pow2(8) == 256;
        Pow2Sum(8, 8);
      }
    }
    EnqueueKeepsInv(c, 0, p);
    var c1 := EnqueueSpec(c, 0, p);
    Pow2Scaled(0);
    assert Pow2(0 + BUCKET_NUM_SCALE) == 1024;
    assert Clamped(c, 0, p) == 10000;
    assert SlotTime(0, 10000) == 10001;
    assert [] + [p] == [p];
    assert c1.slots == map[10001 := [p]];
    assert MinSlot(c1.slots) == 10001;
    DequeueKeepsInvIff(c1, 0);
    assert 10001 in c1.slots && Shl(BUCKET_NUM, Level(10001)) == 1024;
  }

  /** Whatever a dequeue returns is the head of the service order; the rest stays as it was. */
  lemma DequeueServesHead(c: Calendar, now: nat)
    requires NoEmptySlot(c.slots)
    ensures var r := DequeueSpec(c, now);
      && NoEmptySlot(r.next.slots)
      && (r.packet.Some? <==> Due(c, now))
      && (r.watchdog.Some? <==> c.slots.Keys != {} && !Due(c, now))
      && Order(c.slots) == (if r.packet.Some? then [r.packet.value] else []) + Order(r.next.slots)
  {
    if c.slots.Keys != {} {
      OrderRemoveMin(c.slots);
    }
  }

  /**
   The head time afterwards: the instant from which the packet returned could be, or now rounded down to the scan.
   The scan afterwards: the level of some packet left, and none is finer; the coarsest if none is left.
   */
  lemma DequeueMovesHead(c: Calendar, now: nat)
    requires Inv(c) && c.slots.Keys != {}
    ensures var r := DequeueSpec(c, now);
      if r.packet.None? then r.next == c.(head := MaskLow(now, c.h))
      else
        && r.next.head + Pow2(c.h) == MinSlot(c.slots)
        && (forall t :: t in r.next.slots ==> r.next.h <= Level(t))
        && (if r.next.slots.Keys == {} then r.next.h == QUEUE_NUM - 1
            else exists t :: t in r.next.slots && Level(t) == r.next.h)
  {
    assert SlotOk(c, MinSlot(c.slots));
    GranuleBefore(MinSlot(c.slots), c.h);
  }

  /** Once its slot time has come, a packet is not held back: some packet is returned. */
  lemma DueSlotIsServed(c: Calendar, now: nat, t: nat)
    requires Inv(c) && t in c.slots && t <= now
    ensures DequeueSpec(c, now).packet.Some?
  {
  }

  /** The watchdog of an idle dequeue is the first instant at which the next dequeue pops. */
  lemma WatchdogIsFirstRelease(c: Calendar, now: nat, later: nat)
    requires Inv(c) && DequeueSpec(c, now).watchdog.Some?
    ensures var r := DequeueSpec(c, now);
      && now < r.watchdog.value
      && r.watchdog.value + Pow2(c.h) == MinSlot(c.slots)
      && (DequeueSpec(r.next, later).packet.Some? <==> later >= r.watchdog.value)
  {
    assert SlotOk(c, MinSlot(c.slots));
    GranuleBefore(MinSlot(c.slots), c.h);
  }

  /**
   Release time against send time: the slot of send time `s` at queue id `q` is popped no earlier
   than `s` rounded down to `2^q` exactly when the scan is no coarser than `q`.
   */
  lemma ReleaseNotEarly(q: nat, s: nat, h: nat)
    requires h <= Level(SlotTime(q, s))
    ensures MaskLow(s, q) <= Release(SlotTime(q, s), h) <==> h <= q
  {
    SlotTimeBounds(q, s);
    GranuleBefore(SlotTime(q, s), h);
    if h <= q {
      Pow2Monotone(h, q);
    } else {
      Pow2Monotone(q + 1, h);
    }
  }

  // ----- whole runs -----

  datatype Op = Enqueue(rate: nat, packet: Packet) | Dequeue(now: nat)

  ghost predicate Accepts(c: Calendar, limit: nat) {
    |Order(c.slots)| < limit
  }

  ghost function Step(c: Calendar, op: Op, limit: nat): (r: (Calendar, seq<Packet>))
    requires NoEmptySlot(c.slots)
    ensures NoEmptySlot(r.0.slots)
  {
    match op
    case Enqueue(rate, p) =>
      (if Accepts(c, limit) then EnqueueSpec(c, FindQueueIndex(rate), p) else c, [])
    case Dequeue(now) =>
      var r := DequeueSpec(c, now);
      (r.next, if r.packet.Some? then [r.packet.value] else [])
  }

  /** The hypotheses on one call: times below the limit, and no dequeue that rewinds too far. */
  ghost predicate Allowed(c: Calendar, op: Op) {
    match op
    case Enqueue(_, p) => p.stamp < TimeLimit()
    case Dequeue(now) => now < TimeLimit() && RewindSafe(c, now)
  }

  ghost function Taken(c: Calendar, op: Op, limit: nat): multiset<Packet> {
    if op.Enqueue? && |Order(c.slots)| < limit then multiset{op.packet} else multiset{}
  }

  /** The number of queued packets never exceeds the limit. */
  lemma StepKeepsLimit(c: Calendar, op: Op, limit: nat)
    requires Inv(c) && Allowed(c, op) && |Order(c.slots)| <= limit
    ensures |Order(Step(c, op, limit).0.slots)| <= limit
  {
    StepSound(c, op, limit);
    var (c', out) := Step(c, op, limit);
    assert |Contents(c.slots)| == |Order(c.slots)| && |Contents(c'.slots)| == |Order(c'.slots)|;
    assert |Contents(c.slots) + Taken(c, op, limit)| == |multiset(out) + Contents(c'.slots)|;
  }

  /** One step of a run: the invariant, conservation, and service strictly from the front. */
  lemma StepSound(c: Calendar, op: Op, limit: nat)
    requires Inv(c) && Allowed(c, op)
    ensures var (c', out) := Step(c, op, limit);
      && Inv(c')
      && Contents(c.slots) + Taken(c, op, limit) == multiset(out) + Contents(c'.slots)
      && (op.Dequeue? ==> Order(c.slots) == out + Order(c'.slots))
  {
    match op
    case Enqueue(rate, p) =>
      if Accepts(c, limit) {
        var q := FindQueueIndex(rate);
        EnqueueKeepsInv(c, q, p);
        EnqueueContents(c, q, p);
      }
    case Dequeue(now) =>
      DequeueKeepsInvIff(c, now);
      DequeueServesHead(c, now);
      var (c', out) := Step(c, op, limit);
      assert multiset(out + Order(c'.slots)) == multiset(out) + multiset(Order(c'.slots));
  }

  lemma EnqueueContents(c: Calendar, q: nat, p: Packet)
    ensures Contents(EnqueueSpec(c, q, p).slots) == Contents(c.slots) + multiset{p}
  {
    if c.slots.Keys == {} {
      assert c.slots == map[];
    }
    ContentsInsert(c.slots, SlotTime(q, Clamped(c, q, p)), p);
  }

  datatype Outcome = Outcome(cal: Calendar, out: seq<Packet>, taken: multiset<Packet>)

  /** A run: the final calendar, the packets it returned in order and those it accepted. */
  ghost function Run(c: Calendar, ops: seq<Op>, limit: nat): (r: Outcome)
    requires NoEmptySlot(c.slots)
    ensures NoEmptySlot(r.cal.slots)
    decreases |ops|
  {
    if ops == [] then Outcome(c, [], multiset{})
    else
      var (c1, out) := Step(c, ops[0], limit);
      var rest := Run(c1, ops[1..], limit);
      Outcome(rest.cal, out + rest.out, Taken(c, ops[0], limit) + rest.taken)
  }

  ghost predicate AllAllowed(c: Calendar, ops: seq<Op>, limit: nat)
    requires NoEmptySlot(c.slots)
    decreases |ops|
  {
    ops == [] || (Allowed(c, ops[0]) && AllAllowed(Step(c, ops[0], limit).0, ops[1..], limit))
  }

  /** Over any such run the window invariant holds and no packet is lost, invented or duplicated. */
  lemma {:induction false} RunSound(c: Calendar, ops: seq<Op>, limit: nat)
    requires Inv(c) && AllAllowed(c, ops, limit)
    ensures var r := Run(c, ops, limit);
      && Inv(r.cal)
      && Contents(c.slots) + r.taken == multiset(r.out) + Contents(r.cal.slots)
    decreases |ops|
  {
    if ops != [] {
      var (c1, out) := Step(c, ops[0], limit);
      StepSound(c, ops[0], limit);
      RunSound(c1, ops[1..], limit);
      var rest := Run(c1, ops[1..], limit);
      BalanceChains(Contents(c.slots), Taken(c, ops[0], limit), out, Contents(c1.slots),
                    rest.taken, rest.out, Contents(rest.cal.slots));
    }
  }

  /** Between enqueues, a run serves a prefix of the service order, in that order. */
  lemma {:induction false} DrainServesInOrder(c: Calendar, ops: seq<Op>, limit: nat)
    requires Inv(c) && AllAllowed(c, ops, limit)
    requires forall i :: 0 <= i < |ops| ==> ops[i].Dequeue?
    ensures var r := Run(c, ops, limit); Order(c.slots) == r.out + Order(r.cal.slots)
    decreases |ops|
  {
    if ops != [] {
      var (c1, out) := Step(c, ops[0], limit);
      StepSound(c, ops[0], limit);
      DrainServesInOrder(c1, ops[1..], limit);
      var rest := Run(c1, ops[1..], limit);
      OrderChains(Order(c.slots), out, Order(c1.slots), rest.out, Order(rest.cal.slots));
    }
  }

  // ----- a discipline under which no dequeue rewinds -----

  /** The call happens at `clock`; a packet that starts the calendar is already due. */
  ghost predicate OnTime(c: Calendar, op: Op, clock: nat) {
    match op
    case Enqueue(rate, p) =>
      p.stamp < TimeLimit() && (c.slots.Keys == {} ==> MaskLow(p.stamp, FindQueueIndex(rate)) <= clock)
    case Dequeue(now) => now == clock < TimeLimit()
  }

  /** If calls are on time and the clock never runs backwards, the head never runs ahead of it. */
  lemma OnTimeNeverRewinds(c: Calendar, op: Op, limit: nat, clock: nat)
    requires Inv(c) && OnTime(c, op, clock)
    requires c.slots.Keys != {} ==> c.head <= clock
    ensures Allowed(c, op)
    ensures var c' := Step(c, op, limit).0; c'.slots.Keys != {} ==> c'.head <= clock
  {
    MaskLowBounds(c.head, c.h);
    if op.Dequeue? {
      MaskLowBounds(op.now, c.h);
    }
  }

  ghost predicate AllOnTime(c: Calendar, ops: seq<Op>, limit: nat, clocks: seq<nat>)
    requires NoEmptySlot(c.slots) && |clocks| == |ops|
    decreases |ops|
  {
    ops == [] || (OnTime(c, ops[0], clocks[0]) && AllOnTime(Step(c, ops[0], limit).0, ops[1..], limit, clocks[1..]))
  }

  /** Hence a run that is on time by a monotone clock meets the hypotheses of RunSound. */
  lemma {:induction false} OnTimeRunIsAllowed(c: Calendar, ops: seq<Op>, limit: nat, clocks: seq<nat>)
    requires Inv(c) && |clocks| == |ops| && AllOnTime(c, ops, limit, clocks)
    requires forall i, j :: 0 <= i <= j < |clocks| ==> clocks[i] <= clocks[j]
    requires c.slots.Keys != {} && ops != [] ==> c.head <= clocks[0]
    ensures AllAllowed(c, ops, limit)
    decreases |ops|
  {
    if ops != [] {
      OnTimeNeverRewinds(c, ops[0], limit, clocks[0]);
      StepSound(c, ops[0], limit);
      OnTimeRunIsAllowed(Step(c, ops[0], limit).0, ops[1..], limit, clocks[1..]);
    }
  }
}

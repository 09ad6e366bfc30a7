/**
 Carousel's timing wheel as a sorted map from slot number to FIFO
 (kernel/sch_carousel/sch_carousel.c:90-143, 208-212). Module Carousel refines it.
 */
module CarouselSpec {
  import opened Wrappers
  import opened SlotMap
  import opened Granules

  /** `g` is `grnlrty`; the wheel has `n` buckets, one more than the granules of the horizon. */
  datatype Config = Config(g: nat, n: nat, limit: nat)

  ghost predicate ConfigOk(k: Config) {
    k.g > 0 && k.n > 0
  }

  function Horizon(k: Config): nat
    requires k.n > 0
  {
    Times(k.n - 1, k.g)
  }

  datatype Wheel = Wheel(slots: Slots, head: nat)

  datatype Served = Served(next: Wheel, packet: Option<Packet>)

  function Stamped(k: Config, head: nat, p: Packet): Packet
    requires k.n > 0
  {
    if p.stamp < head then p.(stamp := head)
    else if p.stamp > head + Horizon(k) then p.(stamp := head + Horizon(k))
    else p
  }

  function PushSpec(k: Config, w: Wheel, p: Packet): Wheel
    requires ConfigOk(k)
  {
    var p' := Stamped(k, w.head, p);
    w.(slots := Insert(w.slots, Quot(p'.stamp, k.g), p'))
  }

  function Restarted(w: Wheel, now: nat): Wheel {
    if w.slots.Keys == {} then w.(head := now) else w
  }

  ghost predicate Accepts(k: Config, w: Wheel) {
    |Order(w.slots)| < k.limit
  }

  ghost function EnqueueSpec(k: Config, w: Wheel, p: Packet, now: nat): Wheel
    requires ConfigOk(k)
  {
    if Accepts(k, w) then PushSpec(k, Restarted(w, now), p) else Restarted(w, now)
  }

  /** The number of whole granules from `head` until `now` is reached. */
  function StepsToNow(k: Config, head: nat, now: nat): nat
    requires ConfigOk(k)
  {
    if now <= head then 0 else Quot(now - head - 1, k.g) + 1
  }

  /** The number of granules from `head` to slot `t`. */
  function StepsToSlot(k: Config, head: nat, t: nat): nat
    requires ConfigOk(k)
  {
    if Quot(head, k.g) <= t then t - Quot(head, k.g) else 0
  }

  ghost predicate Due(k: Config, w: Wheel, now: nat)
    requires ConfigOk(k)
  {
    w.slots.Keys != {} && StepsToSlot(k, w.head, MinSlot(w.slots)) <= StepsToNow(k, w.head, now)
  }

  /** The head advances to the least live slot or to `now`, whichever comes first. */
  ghost function DequeueSpec(k: Config, w: Wheel, now: nat): Served
    requires ConfigOk(k) && NoEmptySlot(w.slots)
  {
    if w.slots.Keys == {} then Served(Restarted(w, now), None)
    else
      var t := MinSlot(w.slots);
      if Due(k, w, now) then
        Served(Wheel(RemoveFirst(w.slots, t), w.head + Times(StepsToSlot(k, w.head, t), k.g)), Some(w.slots[t][0]))
      else
        Served(w.(head := w.head + Times(StepsToNow(k, w.head, now), k.g)), None)
  }

  /** Every packet sits in the slot of its stamp. */
  ghost predicate StampsOk(k: Config, w: Wheel)
    requires ConfigOk(k)
  {
    forall t, i :: t in w.slots && 0 <= i < |w.slots[t]| ==> Quot(w.slots[t][i].stamp, k.g) == t
  }

  ghost predicate InReach(k: Config, head: nat, t: nat)
    requires ConfigOk(k)
  {
    Quot(head, k.g) <= t < Quot(head, k.g) + k.n
  }

  ghost predicate Inv(k: Config, w: Wheel) {
    && ConfigOk(k) && NoEmptySlot(w.slots) && StampsOk(k, w)
    && forall t :: t in w.slots ==> InReach(k, w.head, t)
  }

  /** `time_to_index`, on slot numbers. */
  function Position(k: Config, t: nat): (i: nat)
    requires ConfigOk(k)
    ensures i < k.n
  {
    Rem(t, k.n)
  }

  /** Live slots occupy distinct positions of the wheel. */
  lemma DistinctPositions(k: Config, head: nat, t: nat, u: nat)
    requires ConfigOk(k) && InReach(k, head, t) && InReach(k, head, u)
    requires Position(k, t) == Position(k, u)
    ensures t == u
  {
    QuotTimes(t, k.n);
    QuotTimes(u, k.n);
    if Quot(t, k.n) < Quot(u, k.n) {
      TimesOrder(Quot(t, k.n), Quot(u, k.n), k.n);
    } else if Quot(u, k.n) < Quot(t, k.n) {
      TimesOrder(Quot(u, k.n), Quot(t, k.n), k.n);
    }
  }

  /** From this head time, the slots of one horizon need no more than `1 + horizon / g` positions. */
  ghost predicate FitsFrom(g: nat, horizon: nat, head: nat)
    requires g > 0
  {
    Quot(head + horizon, g) < Quot(head, g) + (1 + Quot(horizon, g))
  }

  /** `1 + horizon / g` buckets are enough for every head time exactly when `g` divides the horizon. */
  lemma WheelSizeExact(g: nat, horizon: nat)
    requires g > 0
    ensures (forall head: nat :: FitsFrom(g, horizon, head)) <==> Times(Quot(horizon, g), g) == horizon
  {
    QuotTimes(horizon, g);
    if Times(Quot(horizon, g), g) == horizon {
      forall head: nat ensures FitsFrom(g, horizon, head) {
        QuotShift(head, Quot(horizon, g), g);
      }
    } else {
      LastSlotWraps(g, horizon);
    }
  }

  lemma LastSlotWraps(g: nat, horizon: nat)
    requires g > 0 && Times(Quot(horizon, g), g) < horizon
    ensures !FitsFrom(g, horizon, g - 1)
  {
    var q := Quot(horizon, g);
    QuotTimes(horizon, g);
    QuotUnique(g - 1, g, 0);
    assert Times(q + 1, g) == Times(q, g) + g;
    QuotUnique(g - 1 + horizon, g, q + 1);
  }

  lemma PushInReach(k: Config, head: nat, p: Packet)
    requires ConfigOk(k)
    ensures InReach(k, head, Quot(Stamped(k, head, p).stamp, k.g))
  {
    var s := Stamped(k, head, p).stamp;
    QuotMonotone(head, s, k.g);
    QuotMonotone(s, head + Horizon(k), k.g);
    QuotShift(head, k.n - 1, k.g);
  }

  /**
   What an enqueue does, in full: an empty wheel starts at `now`. The packet keeps its identity, and its stamp if
   that is within the horizon of the head, else it gets the nearer end; it joins the FIFO of that stamp's slot.
   */
  lemma EnqueueSets(k: Config, w: Wheel, p: Packet, now: nat)
    requires ConfigOk(k)
    ensures var head := if w.slots.Keys == {} then now else w.head;
      var last := head + Times(k.n - 1, k.g);
      var stamp := if p.stamp < head then head else if p.stamp <= last then p.stamp else last;
      var t := Quot(stamp, k.g);
      && EnqueueSpec(k, w, p, now).head == head
      && EnqueueSpec(k, w, p, now).slots ==
           if |Order(w.slots)| < k.limit then w.slots[t := Fifo(w.slots, t) + [Packet(p.id, stamp)]] else w.slots
  {
  }

  lemma PushKeepsInv(k: Config, w: Wheel, p: Packet)
    requires Inv(k, w)
    ensures Inv(k, PushSpec(k, w, p))
  {
    PushInReach(k, w.head, p);
    var p' := Stamped(k, w.head, p);
    var t, next := Quot(p'.stamp, k.g), PushSpec(k, w, p);
    forall u, i | u in next.slots && 0 <= i < |next.slots[u]| ensures Quot(next.slots[u][i].stamp, k.g) == u {
      if u == t && i == |Fifo(w.slots, t)| {
        assert next.slots[u][i] == p';
      } else {
        assert u in w.slots && next.slots[u][i] == w.slots[u][i];
      }
    }
  }

  lemma EnqueueKeepsInv(k: Config, w: Wheel, p: Packet, now: nat)
    requires Inv(k, w)
    ensures Inv(k, EnqueueSpec(k, w, p, now))
  {
    PushKeepsInv(k, Restarted(w, now), p);
  }

  /** Advancing by whole granules moves the head slot by as many slots. */
  lemma HeadSlot(k: Config, head: nat, steps: nat)
    requires ConfigOk(k)
    ensures Quot(head + Times(steps, k.g), k.g) == Quot(head, k.g) + steps
  {
    QuotShift(head, steps, k.g);
  }

  /** After the steps to `now` the head is there, by less than a granule. */
  lemma StepsReachNow(k: Config, head: nat, now: nat)
    requires ConfigOk(k)
    ensures var steps := StepsToNow(k, head, now);
      && now <= head + Times(steps, k.g)
      && (head < now ==> head + Times(steps, k.g) < now + k.g)
      && (forall i: nat :: i < steps ==> head + Times(i, k.g) < now)
  {
    if head < now {
      QuotTimes(now - head - 1, k.g);
      var steps := StepsToNow(k, head, now);
      forall i: nat | i < steps ensures head + Times(i, k.g) < now {
        if i < steps - 1 {
          TimesOrder(i, steps - 1, k.g);
        }
      }
    }
  }

  lemma DequeueKeepsInv(k: Config, w: Wheel, now: nat)
    requires Inv(k, w)
    ensures Inv(k, DequeueSpec(k, w, now).next)
  {
    if w.slots.Keys != {} {
      var t := MinSlot(w.slots);
      RemoveFirstFifo(w.slots, t);
      HeadSlot(k, w.head, StepsToSlot(k, w.head, t));
      HeadSlot(k, w.head, StepsToNow(k, w.head, now));
      assert InReach(k, w.head, t);
      var next := DequeueSpec(k, w, now).next;
      forall u | u in next.slots ensures InReach(k, next.head, u) {
        assert u in w.slots && InReach(k, w.head, u) && t <= u;
      }
    }
  }

  /**
   Where the head goes: by whole granules to the slot of the packet returned, or to `now` and less than a granule
   beyond; an empty wheel restarts at `now`.
   */
  lemma DequeueMovesHead(k: Config, w: Wheel, now: nat)
    requires Inv(k, w)
    ensures var r := DequeueSpec(k, w, now);
      if w.slots.Keys == {} then r.next.head == now
      else
        && (exists steps: nat :: r.next.head == w.head + Times(steps, k.g))
        && (if r.packet.Some? then Quot(r.next.head, k.g) == MinSlot(w.slots)
            else if now <= w.head then r.next.head == w.head
            else now <= r.next.head < now + k.g)
  {
    if w.slots.Keys != {} {
      assert InReach(k, w.head, MinSlot(w.slots));
      HeadSlot(k, w.head, StepsToSlot(k, w.head, MinSlot(w.slots)));
      StepsReachNow(k, w.head, now);
    }
  }

  /** If any packet is due by its stamp, dequeue returns a packet, from the smallest slot. */
  lemma DueStampIsServed(k: Config, w: Wheel, now: nat, t: nat, i: nat)
    requires Inv(k, w) && t in w.slots && i < |w.slots[t]| && w.slots[t][i].stamp <= now
    ensures DequeueSpec(k, w, now).packet == Some(w.slots[MinSlot(w.slots)][0])
  {
    var steps := StepsToNow(k, w.head, now);
    QuotMonotone(w.slots[t][i].stamp, now, k.g);
    StepsReachNow(k, w.head, now);
    QuotMonotone(now, w.head + Times(steps, k.g), k.g);
    HeadSlot(k, w.head, steps);
  }

  /** With a head less than a granule ahead of the clock, no packet leaves two granules early. */
  lemma NotTooEarly(k: Config, w: Wheel, now: nat)
    requires Inv(k, w) && w.head < now + k.g
    ensures var r := DequeueSpec(k, w, now);
      && r.next.head < now + k.g
      && (r.packet.Some? ==> r.packet.value.stamp < now + 2 * k.g)
  {
    if w.slots.Keys != {} {
      var t := MinSlot(w.slots);
      var toSlot, toNow := StepsToSlot(k, w.head, t), StepsToNow(k, w.head, now);
      StepsReachNow(k, w.head, now);
      if Due(k, w, now) {
        if toSlot < toNow {
          TimesOrder(toSlot, toNow, k.g);
        }
        var head' := w.head + Times(toSlot, k.g);
        HeadSlot(k, w.head, toSlot);
        assert InReach(k, w.head, t);
        QuotTimes(head', k.g);
        QuotTimes(w.slots[t][0].stamp, k.g);
      }
    }
  }

  lemma DequeueServesHead(k: Config, w: Wheel, now: nat)
    requires Inv(k, w)
    ensures var r := DequeueSpec(k, w, now);
      && (r.packet.Some? <==> Due(k, w, now))
      && Order(w.slots) == (if r.packet.Some? then [r.packet.value] else []) + Order(r.next.slots)
  {
    if w.slots.Keys != {} {
      OrderRemoveMin(w.slots);
    }
  }

  // ----- whole runs -----

  datatype Op = Enqueue(packet: Packet, now: nat) | Dequeue(now: nat)

  datatype Outcome = Outcome(wheel: Wheel, out: seq<Packet>, taken: multiset<Packet>)

  /** The stamp of an enqueued packet: its own, or the nearer end of the horizon. */
  function InReachStamp(k: Config, w: Wheel, p: Packet, now: nat): (stamp: nat)
    requires ConfigOk(k)
    ensures var head := if w.slots.Keys == {} then now else w.head;
      var last := head + Times(k.n - 1, k.g);
      && head <= stamp <= last
      && (head <= p.stamp <= last ==> stamp == p.stamp)
      && (p.stamp < head ==> stamp == head) && (p.stamp > last ==> stamp == last)
  {
    Stamped(k, Restarted(w, now).head, p).stamp
  }

  ghost function Step(k: Config, w: Wheel, op: Op): (r: Outcome)
    requires Inv(k, w)
    ensures Inv(k, r.wheel)
  {
    match op
    case Enqueue(p, now) =>
      EnqueueKeepsInv(k, w, p, now);
      Outcome(EnqueueSpec(k, w, p, now), [],
              if |Order(w.slots)| < k.limit then multiset{Packet(p.id, InReachStamp(k, w, p, now))} else multiset{})
    case Dequeue(now) =>
      DequeueKeepsInv(k, w, now);
      var r := DequeueSpec(k, w, now);
      Outcome(r.next, if r.packet.Some? then [r.packet.value] else [], multiset{})
  }

  ghost function Run(k: Config, w: Wheel, ops: seq<Op>): (r: Outcome)
    requires Inv(k, w)
    ensures Inv(k, r.wheel)
    decreases |ops|
  {
    if ops == [] then Outcome(w, [], multiset{})
    else
      var r := Step(k, w, ops[0]);
      var rest := Run(k, r.wheel, ops[1..]);
      Outcome(rest.wheel, r.out + rest.out, r.taken + rest.taken)
  }

  /** The number of queued packets never exceeds the limit. */
  lemma StepKeepsLimit(k: Config, w: Wheel, op: Op)
    requires Inv(k, w) && |Order(w.slots)| <= k.limit
    ensures |Order(Step(k, w, op).wheel.slots)| <= k.limit
  {
    var r := Step(k, w, op);
    StepSound(k, w, op);
    assert |Contents(w.slots)| == |Order(w.slots)| && |Contents(r.wheel.slots)| == |Order(r.wheel.slots)|;
    assert |Contents(w.slots) + r.taken| == |multiset(r.out) + Contents(r.wheel.slots)|;
  }

  lemma EnqueueContents(k: Config, w: Wheel, p: Packet, now: nat)
    requires Inv(k, w)
    ensures Contents(EnqueueSpec(k, w, p, now).slots) == Contents(w.slots) +
      (if |Order(w.slots)| < k.limit then multiset{Packet(p.id, InReachStamp(k, w, p, now))} else multiset{})
  {
    if Accepts(k, w) {
      var w' := Restarted(w, now);
      var p' := Stamped(k, w'.head, p);
      assert p' == Packet(p.id, InReachStamp(k, w, p, now));
      ContentsInsert(w.slots, Quot(p'.stamp, k.g), p');
    }
  }

  lemma StepSound(k: Config, w: Wheel, op: Op)
    requires Inv(k, w)
    ensures var r := Step(k, w, op);
      && Contents(w.slots) + r.taken == multiset(r.out) + Contents(r.wheel.slots)
      && (op.Dequeue? ==> Order(w.slots) == r.out + Order(r.wheel.slots))
  {
    match op
    case Enqueue(p, now) => EnqueueContents(k, w, p, now);
    case Dequeue(now) =>
      DequeueServesHead(k, w, now);
      var r := Step(k, w, op);
      assert multiset(r.out + Order(r.wheel.slots)) == multiset(r.out) + multiset(Order(r.wheel.slots));
  }

  /** Over any run no packet is lost, invented or duplicated. */
  lemma {:induction false} RunSound(k: Config, w: Wheel, ops: seq<Op>)
    requires Inv(k, w)
    ensures var r := Run(k, w, ops);
      Contents(w.slots) + r.taken == multiset(r.out) + Contents(r.wheel.slots)
    decreases |ops|
  {
    if ops != [] {
      var r := Step(k, w, ops[0]);
      StepSound(k, w, ops[0]);
      RunSound(k, r.wheel, ops[1..]);
      var rest := Run(k, r.wheel, ops[1..]);
      BalanceChains(Contents(w.slots), r.taken, r.out, Contents(r.wheel.slots),
                    rest.taken, rest.out, Contents(rest.wheel.slots));
    }
  }

  /** Every packet accepted in the run lies within the horizon when it comes. */
  ghost predicate AllInReach(k: Config, w: Wheel, ops: seq<Op>)
    requires Inv(k, w)
    decreases |ops|
  {
    ops == [] ||
    ((ops[0].Enqueue? && |Order(w.slots)| < k.limit ==>
        var head := if w.slots.Keys == {} then ops[0].now else w.head;
        head <= ops[0].packet.stamp <= head + Times(k.n - 1, k.g))
     && AllInReach(k, Step(k, w, ops[0]).wheel, ops[1..]))
  }

  /** The packets accepted in the run, as they came. */
  ghost function Given(k: Config, w: Wheel, ops: seq<Op>): multiset<Packet>
    requires Inv(k, w)
    decreases |ops|
  {
    if ops == [] then multiset{}
    else
      (if ops[0].Enqueue? && |Order(w.slots)| < k.limit then multiset{ops[0].packet} else multiset{})
      + Given(k, Step(k, w, ops[0]).wheel, ops[1..])
  }

  lemma {:induction false} InReachTaken(k: Config, w: Wheel, ops: seq<Op>)
    requires Inv(k, w) && AllInReach(k, w, ops)
    ensures Run(k, w, ops).taken == Given(k, w, ops)
    decreases |ops|
  {
    if ops != [] {
      InReachTaken(k, Step(k, w, ops[0]).wheel, ops[1..]);
    }
  }

  /**
   Over a run in which all packets come within the horizon, with a monotone clock, the packets returned are those
   queued and given, unchanged, and none leaves two granules before its own stamp.
   */
  lemma InReachRun(k: Config, w: Wheel, ops: seq<Op>, clock: nat)
    requires Inv(k, w) && w.head < clock + k.g && Monotone(ops, clock) && AllInReach(k, w, ops)
    ensures var r := Run(k, w, ops);
      Contents(w.slots) + Given(k, w, ops) == multiset(r.out) + Contents(r.wheel.slots)
    ensures NeverEarly(k, w, ops)
  {
    InReachTaken(k, w, ops);
    RunSound(k, w, ops);
    RunNotTooEarly(k, w, ops, clock);
  }

  /** The clock readings of a run never go backwards, and start at or after `clock`. */
  ghost predicate Monotone(ops: seq<Op>, clock: nat) {
    && (forall i :: 0 <= i < |ops| ==> clock <= ops[i].now)
    && (forall i, j :: 0 <= i < j < |ops| ==> ops[i].now <= ops[j].now)
  }

  /** Every packet that a run returns is returned less than two granules before its stamp. */
  ghost predicate NeverEarly(k: Config, w: Wheel, ops: seq<Op>)
    requires Inv(k, w)
    decreases |ops|
  {
    ops == [] ||
    var r := Step(k, w, ops[0]);
    && (forall i :: 0 <= i < |r.out| ==> r.out[i].stamp < ops[0].now + 2 * k.g)
    && NeverEarly(k, r.wheel, ops[1..])
  }

  /** With a monotone clock, no run returns a packet two granules early, and the head stays within a granule of the clock. */
  lemma {:induction false} RunNotTooEarly(k: Config, w: Wheel, ops: seq<Op>, clock: nat)
    requires Inv(k, w) && w.head < clock + k.g && Monotone(ops, clock)
    ensures NeverEarly(k, w, ops)
    ensures Run(k, w, ops).wheel.head < (if ops == [] then clock else ops[|ops| - 1].now) + k.g
    decreases |ops|
  {
    if ops != [] {
      var r := Step(k, w, ops[0]);
      if ops[0].Dequeue? {
        NotTooEarly(k, w, ops[0].now);
      }
      RunNotTooEarly(k, r.wheel, ops[1..], ops[0].now);
    }
  }
}

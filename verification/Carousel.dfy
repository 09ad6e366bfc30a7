/**
 Carousel's timing wheel (kernel/sch_carousel/sch_carousel.c): one array of buckets, scanned
 linearly from the head. The ghost field `slots` is the map from slot number to FIFO it stands for.
 */
module Carousel {
  import opened Wrappers
  import opened SlotMap
  import opened Granules
  import opened CarouselSpec

  class TimingWheel {
    const k: Config
    const horizon: nat
    const mainBuckets: array<seq<Packet>>
    var headTs: nat
    var mainTs: nat
    var maxTs: nat
    var numOfElements: nat
    ghost var slots: Slots

    ghost function State(): Wheel
      reads this
    {
      Wheel(slots, headTs)
    }

    ghost predicate Valid()
      reads this, mainBuckets
    {
      && Inv(k, State())
      && horizon == Horizon(k) && maxTs == headTs + horizon
      && numOfElements == |Order(slots)|
      && Filled(k, slots, mainBuckets[..])
    }

    /** `gq_init` for a horizon of `n - 1` granules. */
    constructor (g: nat, n: nat, limit: nat, now: nat)
      requires g > 0 && n > 0
      ensures Valid() && fresh(mainBuckets)
      ensures k == Config(g, n, limit) && State() == Wheel(map[], now)
    {
      k, horizon := Config(g, n, limit), Times(n - 1, g);
      headTs, mainTs, maxTs, numOfElements := now, now, now + Times(n - 1, g), 0;
      mainBuckets := new seq<Packet>[n](_ => []);
      slots := map[];
      new;
      OrderEmpty(slots);
    }

    /** `time_to_index`. */
    method TimeToIndex(time: nat) returns (i: nat)
      requires ConfigOk(k)
      ensures i < k.n && i == Position(k, Quot(time, k.g))
    {
      QuotIsDiv(time, k.g);
      QuotIsDiv(time / k.g, k.n);
      i := (time / k.g) % k.n;
    }

    /** `gq_push`. */
    method GqPush(skb: Packet)
      requires Valid()
      modifies this`numOfElements, this`slots, mainBuckets
      ensures Valid() && State() == PushSpec(k, old(State()), skb)
    {
      var packet := skb;
      if packet.stamp < headTs {
        packet := packet.(stamp := headTs);
      }
      if packet.stamp > maxTs {
        packet := packet.(stamp := maxTs);
      }
      var index := TimeToIndex(packet.stamp);
      assert packet == Stamped(k, headTs, skb);
      ghost var next := PushSpec(k, State(), skb);
      PushKeepsInv(k, State(), skb);
      PushInReach(k, headTs, skb);
      PushFills(k, State(), mainBuckets[..], packet, Quot(packet.stamp, k.g));
      numOfElements := numOfElements + 1;
      mainBuckets[index] := mainBuckets[index] + [packet];
      slots := next.slots;
    }

    /** The loop of `get_min_index`. */
    method Scan(now: nat) returns (head: nat, index: nat, ghost steps: nat)
      requires Inv(k, State()) && Filled(k, slots, mainBuckets[..]) && slots.Keys != {}
      ensures Looking(k, State(), steps, head, now) && index == Position(k, Quot(head, k.g)) < mainBuckets.Length
      ensures mainBuckets[index] == Fifo(slots, Quot(head, k.g))
      ensures mainBuckets[index] != [] || now <= head
    {
      ghost var w, b := State(), mainBuckets[..];
      steps := 0;
      head := headTs;
      index := TimeToIndex(head);
      ScanStart(k, w);
      FilledAt(k, w, b, Quot(head, k.g));
      while mainBuckets[index] == [] && head < now
        invariant Looking(k, w, steps, head, now)
        invariant index == Position(k, Quot(head, k.g))
        invariant b[index] == Fifo(w.slots, Quot(head, k.g))
        decreases now - head
      {
        LookOn(k, w, steps, head, now);
        head := head + k.g;
        steps := steps + 1;
        index := TimeToIndex(head);
        FilledAt(k, w, b, Quot(head, k.g));
      }
    }

    /** `get_min_index`: advance the head over empty buckets, up to `now`. */
    method GetMinIndex(now: nat) returns (index: nat)
      requires Valid() && slots.Keys != {}
      modifies this`headTs, this`maxTs
      ensures Valid()
      ensures index == Position(k, Quot(headTs, k.g)) < mainBuckets.Length
      ensures Due(k, old(State()), now) ==>
                && headTs == old(headTs) + Times(StepsToSlot(k, old(headTs), MinSlot(slots)), k.g)
                && Quot(headTs, k.g) == MinSlot(slots)
                && mainBuckets[index] == slots[MinSlot(slots)]
      ensures !Due(k, old(State()), now) ==>
                && headTs == old(headTs) + Times(StepsToNow(k, old(headTs), now), k.g)
                && mainBuckets[index] == []
    {
      ghost var w := State();
      var head;
      ghost var steps;
      head, index, steps := Scan(now);
      ScanEnd(k, w, steps, now);
      headTs := head;
      maxTs := head + horizon;
    }

    /** `gq_dequeue`. */
    method GqDequeue(now: nat) returns (skb: Option<Packet>)
      requires Valid()
      modifies this, mainBuckets
      ensures Valid()
      ensures DequeueSpec(k, old(State()), now) == Served(State(), skb)
    {
      OrderEmpty(slots);
      if numOfElements == 0 {
        headTs, mainTs, maxTs := now, now, now + horizon;
        return None;
      }
      ghost var w := State();
      var index := GetMinIndex(now);
      if mainBuckets[index] == [] {
        return None;
      }
      assert Due(k, w, now);
      DequeueKeepsInv(k, w, now);
      skb := TakeHead(index);
    }

    /** `gq_extract`: take the head of the first bucket. */
    method TakeHead(index: nat) returns (skb: Option<Packet>)
      requires Valid() && slots.Keys != {} && Inv(k, State().(slots := RemoveFirst(slots, MinSlot(slots))))
      requires index == Position(k, MinSlot(slots)) < mainBuckets.Length
      modifies this`numOfElements, this`slots, mainBuckets
      ensures Valid() && slots == RemoveFirst(old(slots), MinSlot(old(slots)))
      ensures old(slots)[MinSlot(old(slots))] != [] && skb == Some(old(slots)[MinSlot(old(slots))][0])
    {
      TakeFills(k, State(), mainBuckets[..]);
      ghost var t := MinSlot(slots);
      numOfElements := numOfElements - 1;
      skb := Some(mainBuckets[index][0]);
      mainBuckets[index] := mainBuckets[index][1..];
      slots := RemoveFirst(slots, t);
    }

    /** `gq_enqueue` without segmentation. */
    method GqEnqueue(skb: Packet, now: nat) returns (accepted: bool)
      requires Valid()
      modifies this, mainBuckets
      ensures Valid()
      ensures accepted <==> Accepts(k, old(State()))
      ensures State() == EnqueueSpec(k, old(State()), skb, now)
    {
      OrderEmpty(slots);
      if numOfElements == 0 {
        headTs, mainTs, maxTs := now, now, now + horizon;
      }
      accepted := numOfElements < k.limit;
      if accepted {
        GqPush(skb);
      }
    }
  }

  /** The buckets hold exactly the FIFOs of the live slots, each at its position. */
  ghost predicate Filled(k: Config, m: Slots, b: Buckets)
    requires ConfigOk(k)
  {
    && |b| == k.n
    && (forall t :: t in m ==> b[Position(k, t)] == m[t])
    && (forall i :: 0 <= i < k.n && b[i] != [] ==> exists t :: t in m && Position(k, t) == i)
  }

  /** Within reach, the bucket at a slot's position holds that slot or nothing. */
  lemma FilledAt(k: Config, w: Wheel, b: Buckets, t: nat)
    requires Inv(k, w) && Filled(k, w.slots, b) && InReach(k, w.head, t)
    ensures Position(k, t) < |b| && b[Position(k, t)] == Fifo(w.slots, t)
  {
    if t !in w.slots && b[Position(k, t)] != [] {
      var u :| u in w.slots && Position(k, u) == Position(k, t);
      DistinctPositions(k, w.head, t, u);
    }
  }

  lemma FilledChange(k: Config, w: Wheel, m': Slots, b: Buckets, t: nat, x: seq<Packet>)
    requires Inv(k, w) && Filled(k, w.slots, b) && InReach(k, w.head, t) && NoEmptySlot(m')
    requires Fifo(m', t) == x && forall u: nat :: u != t ==> Fifo(m', u) == Fifo(w.slots, u)
    requires forall u :: u in m' ==> u == t || u in w.slots
    requires forall u :: u in w.slots && u != t ==> u in m'
    ensures Filled(k, m', b[Position(k, t) := x])
  {
    var b' := b[Position(k, t) := x];
    forall u | u in m' ensures b'[Position(k, u)] == m'[u] {
      if u != t && Position(k, u) == Position(k, t) {
        DistinctPositions(k, w.head, t, u);
      }
      assert Fifo(m', u) == m'[u];
    }
    forall i | 0 <= i < k.n && b'[i] != [] ensures exists u :: u in m' && Position(k, u) == i {
      if i == Position(k, t) {
        assert t in m';
      } else {
        var u :| u in w.slots && Position(k, u) == i;
        assert u in m';
      }
    }
  }

  /** Appending a packet to the bucket of its stamp fills the pushed wheel. */
  lemma PushFills(k: Config, w: Wheel, b: Buckets, p: Packet, t: nat)
    requires Inv(k, w) && Filled(k, w.slots, b) && InReach(k, w.head, t)
    ensures Position(k, t) < |b| && b[Position(k, t)] == Fifo(w.slots, t)
    ensures |Order(Insert(w.slots, t, p))| == |Order(w.slots)| + 1
    ensures Filled(k, Insert(w.slots, t, p), b[Position(k, t) := b[Position(k, t)] + [p]])
  {
    FilledAt(k, w, b, t);
    OrderInsert(w.slots, t, p, End(w.slots) + t + 1);
    FilledChange(k, w, Insert(w.slots, t, p), b, t, Fifo(w.slots, t) + [p]);
  }

  /** Taking the head of the least slot's bucket empties or shortens just that slot. */
  lemma TakeFills(k: Config, w: Wheel, b: Buckets)
    requires Inv(k, w) && Filled(k, w.slots, b) && w.slots.Keys != {}
    ensures var t := MinSlot(w.slots);
      && w.slots[t] != [] && Position(k, t) < |b| && b[Position(k, t)] == w.slots[t]
      && |Order(RemoveFirst(w.slots, t))| == |Order(w.slots)| - 1
      && Filled(k, RemoveFirst(w.slots, t), b[Position(k, t) := w.slots[t][1..]])
  {
    var t := MinSlot(w.slots);
    RemoveFirstFifo(w.slots, t);
    OrderRemoveMin(w.slots);
    FilledChange(k, w, RemoveFirst(w.slots, t), b, t, w.slots[t][1..]);
  }

  // ----- the scan of get_min_index -----

  /** After `steps` granules no live slot has been passed. */
  ghost predicate ScanAt(k: Config, w: Wheel, steps: nat) {
    Inv(k, w) && w.slots.Keys != {} && steps <= StepsToSlot(k, w.head, MinSlot(w.slots))
    && InReach(k, w.head, Quot(w.head + Times(steps, k.g), k.g))
  }

  lemma ScanStart(k: Config, w: Wheel)
    requires Inv(k, w) && w.slots.Keys != {}
    ensures ScanAt(k, w, 0)
  {
    assert InReach(k, w.head, MinSlot(w.slots));
  }

  lemma ScanOn(k: Config, w: Wheel, steps: nat, now: nat)
    requires ScanAt(k, w, steps) && Quot(w.head + Times(steps, k.g), k.g) !in w.slots
    requires steps <= StepsToNow(k, w.head, now) && w.head + Times(steps, k.g) < now
    ensures ScanAt(k, w, steps + 1) && steps + 1 <= StepsToNow(k, w.head, now)
  {
    HeadSlot(k, w.head, steps);
    HeadSlot(k, w.head, steps + 1);
    StepsReachNow(k, w.head, now);
    assert InReach(k, w.head, MinSlot(w.slots));
  }

  /** The scan has made `steps` steps and stands at `head`. */
  ghost predicate Looking(k: Config, w: Wheel, steps: nat, head: nat, now: nat) {
    ScanAt(k, w, steps) && head == w.head + Times(steps, k.g) && steps <= StepsToNow(k, w.head, now)
  }

  lemma LookOn(k: Config, w: Wheel, steps: nat, head: nat, now: nat)
    requires Looking(k, w, steps, head, now) && Quot(head, k.g) !in w.slots && head < now
    ensures Looking(k, w, steps + 1, head + k.g, now)
  {
    ScanOn(k, w, steps, now);
    TimesSum(steps, 1, k.g);
  }

  lemma ScanEnd(k: Config, w: Wheel, steps: nat, now: nat)
    requires ScanAt(k, w, steps) && steps <= StepsToNow(k, w.head, now)
    requires Quot(w.head + Times(steps, k.g), k.g) in w.slots || now <= w.head + Times(steps, k.g)
    ensures var head := w.head + Times(steps, k.g);
      && Inv(k, w.(head := head))
      && (Due(k, w, now) <==> Quot(head, k.g) in w.slots)
      && (Due(k, w, now) ==> steps == StepsToSlot(k, w.head, MinSlot(w.slots)) && Quot(head, k.g) == MinSlot(w.slots))
      && (!Due(k, w, now) ==> steps == StepsToNow(k, w.head, now))
  {
    HeadSlot(k, w.head, steps);
    StepsReachNow(k, w.head, now);
    var t := MinSlot(w.slots);
    assert InReach(k, w.head, t);
    var head := w.head + Times(steps, k.g);
    forall u | u in w.slots ensures InReach(k, head, u) {
      assert InReach(k, w.head, u) && t <= u;
    }
  }
}

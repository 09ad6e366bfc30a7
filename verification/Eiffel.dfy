/**
 Eiffel's circular gradient queue (kernel/sch_eiffel/sch_eiffel.c): two bucket arrays, each with a
 w-ary tree, which trade places when the main one has run empty and its time has passed. The ghost
 field `slots` is the map from absolute slot time to FIFO the two arrays stand for.
 */
module Eiffel {
  import opened Words
  import opened Wrappers
  import opened SlotMap
  import opened Granules
  import opened GradientTree
  import opened EiffelSizing
  import opened EiffelSpec

  class GradientQueue {
    const k: Config
    const l: nat
    const s: nat
    const horizon: nat
    var mainTs: nat
    var bufferTs: nat
    var maxTs: nat
    var numOfElements: nat
    var mainBuckets: array<seq<Packet>>
    var bufferBuckets: array<seq<Packet>>
    var meta1: array<Desc>
    var meta2: array<Desc>
    ghost var slots: Slots

    ghost function Repr(): set<object>
      reads this
    {
      {mainBuckets as object, bufferBuckets as object, meta1 as object, meta2 as object}
    }

    ghost function State(): Queue
      reads this
    {
      Queue(slots, mainTs)
    }

    ghost predicate Sized() {
      && ConfigOk(k) && l > 0 && s == LevelStart(l) && k.n <= Span(1, l)
      && horizon == Times(k.n, k.g)
    }

    ghost predicate TimesOk()
      reads this
    {
      bufferTs == BufferTs(k, mainTs) && maxTs == MaxTs(k, mainTs)
    }

    /** Each tree describes its bucket array. */
    ghost predicate TreesOk()
      reads this, Repr()
    {
      && mainBuckets != bufferBuckets && meta1 != meta2
      && mainBuckets.Length == k.n == bufferBuckets.Length
      && TreeOk(meta1[..], mainBuckets[..], l)
      && TreeOk(meta2[..], bufferBuckets[..], l)
    }

    ghost predicate Valid()
      reads this, Repr()
    {
      && Sized() && TimesOk() && TreesOk()
      && Matches(k, slots, mainBuckets[..], bufferBuckets[..], mainTs)
      && numOfElements == |Order(slots)|
    }

    /**
     `gq_init`: the number of buckets, the height of the trees and their size follow from granularity and horizon.
     The queue starts in order exactly when the granularity divides the horizon and the leaves cover the buckets.
     */
    constructor (granularity: nat, horizonNs: nat, limit: nat, now: nat)
      requires granularity > 0
      ensures fresh(Repr()) && State() == Queue(map[], now)
      ensures k == Config(granularity, Quot(horizonNs, granularity), limit) && horizon == horizonNs
      ensures l == TreeHeight(k.n) && s == LevelStart(l)
      ensures Valid() <==> k.n > 0 && Times(k.n, granularity) == horizonNs && l > 0 && k.n <= Span(1, l)
      ensures 1 < k.n < 0x1_0000_0000 ==>
        (Valid() <==> Times(k.n, granularity) == horizonNs && (FloorLog2(k.n) % 5 != 0 || k.n == Pow2(FloorLog2(k.n))))
    {
      var n := horizonNs / granularity;
      QuotIsDiv(horizonNs, granularity);
      var height := ComputeHeight(n);
      var size := TreeSize(height);
      k := Config(granularity, n, limit);
      l, s, horizon := height, size, horizonNs;
      mainTs, bufferTs, maxTs := now, now + horizonNs, now + horizonNs + horizonNs;
      numOfElements := 0;
      mainBuckets := new seq<Packet>[n](_ => []);
      bufferBuckets := new seq<Packet>[n](_ => []);
      meta1 := new Desc[size](InitialDesc);
      meta2 := new Desc[size](InitialDesc);
      slots := map[];
      new;
      StartsInOrder();
      if 1 < k.n < 0x1_0000_0000 {
        SizingExact(k.n);
      }
    }

    lemma StartsInOrder()
      requires k.g > 0 && slots == map[] && numOfElements == 0
      requires bufferTs == mainTs + horizon && maxTs == bufferTs + horizon
      requires mainBuckets != bufferBuckets && meta1 != meta2 && mainBuckets.Length == k.n == bufferBuckets.Length
      requires s == LevelStart(l) == meta1.Length == meta2.Length
      requires forall i :: 0 <= i < k.n ==> mainBuckets[i] == [] && bufferBuckets[i] == []
      requires forall i :: 0 <= i < s ==> meta1[i] == InitialDesc(i) && meta2[i] == InitialDesc(i)
      ensures Valid() <==> Sized()
    {
      OrderEmpty(slots);
      if Sized() {
        FreshTree(meta1[..], mainBuckets[..], l);
        FreshTree(meta2[..], bufferBuckets[..], l);
      }
    }

    /** `get_min_index`; -1 when both trees are empty. */
    method GetMinIndex() returns (index: int)
      requires Sized() && TreesOk()
      ensures index == -1 <==> forall i :: 0 <= i < k.n ==> mainBuckets[i] == [] && bufferBuckets[i] == []
      ensures index != -1 ==> 0 <= index < k.n && meta1.Length > 0
                              && LeastAt(mainBuckets[..], bufferBuckets[..], Position(k, meta1[0].c == 0, index))
    {
      ghost var a, b := mainBuckets[..], bufferBuckets[..];
      RootCount(meta1[..], a, l);
      RootCount(meta2[..], b, l);
      if meta1[0].c != 0 {
        index := MinIndex(meta1, s, l, a);
      } else if meta2[0].c != 0 {
        index := MinIndex(meta2, s, l, b);
      } else {
        index := -1;
      }
    }

    /** An empty queue restarts its time stamps: the first lines of `gq_enqueue` and `gq_extract`. */
    method RestartIfEmpty(now: nat)
      requires Valid()
      modifies this`mainTs, this`bufferTs, this`maxTs
      ensures Valid() && State() == Restarted(old(State()), now)
      ensures numOfElements == 0 <==> slots.Keys == {}
    {
      OrderEmpty(slots);
      if numOfElements == 0 {
        MatchesEmpty(k, slots, mainBuckets[..], bufferBuckets[..], mainTs, now);
        mainTs, bufferTs, maxTs := now, now + horizon, now + horizon + horizon;
      }
    }

    /** The case split of `gq_push`: which array, which bucket, and the packet's clamped stamp. */
    method Locate(skb: Packet) returns (buffer: bool, index: nat, packet: Packet)
      requires Sized() && TimesOk()
      ensures index < k.n
      ensures SlotIndex(k, mainTs, skb.stamp) == Position(k, buffer, index)
      ensures packet == Stamped(k, mainTs, skb)
    {
      PushIndex(k, mainTs, skb.stamp);
      packet, index := skb, 0;
      buffer := skb.stamp >= bufferTs;
      if !buffer {
        if skb.stamp <= mainTs {
          packet := packet.(stamp := mainTs);
        } else {
          QuotIsDiv(skb.stamp - mainTs, k.g);
          index := (skb.stamp - mainTs) / k.g;
        }
      } else {
        if skb.stamp >= maxTs {
          QuotIsDiv(maxTs - bufferTs, k.g);
          index := (maxTs - bufferTs) / k.g - 1;
          packet := packet.(stamp := maxTs);
        } else {
          QuotIsDiv(skb.stamp - bufferTs, k.g);
          index := (skb.stamp - bufferTs) / k.g;
        }
      }
    }

    /** `gq_push`. */
    method GqPush(skb: Packet)
      requires Valid()
      modifies this`numOfElements, this`slots, Repr()
      ensures Valid() && State() == PushSpec(k, old(State()), skb)
    {
      var buffer, index, packet := Locate(skb);
      AddAt(buffer, index, packet);
    }

    /** Queue a packet in bucket `index` of the main or the buffer array. */
    method AddAt(buffer: bool, index: nat, packet: Packet)
      requires Valid() && index < k.n
      modifies this`numOfElements, this`slots, Repr()
      ensures Valid()
      ensures slots == Insert(old(slots), SlotAt(k, mainTs, Position(k, buffer, index)), packet)
    {
      ghost var m := RowAdd(k, State(), mainBuckets[..], bufferBuckets[..], buffer, index, packet);
      numOfElements := numOfElements + 1;
      if buffer {
        AddPacket(bufferBuckets, meta2, index, packet);
      } else {
        AddPacket(mainBuckets, meta1, index, packet);
      }
      slots := m;
    }

    /** Take the head of bucket `index` of the main or the buffer array, the least non-empty one. */
    method TakeAt(buffer: bool, index: nat) returns (packet: Packet)
      requires Valid() && index < k.n
      requires LeastAt(mainBuckets[..], bufferBuckets[..], Position(k, buffer, index))
      modifies this`numOfElements, this`slots, Repr()
      ensures Valid() && Extracted(old(State()), State(), packet)
    {
      ghost var q' := RowTake(k, State(), mainBuckets[..], bufferBuckets[..], buffer, index);
      numOfElements := numOfElements - 1;
      if buffer {
        packet := TakePacket(bufferBuckets, meta2, index);
      } else {
        packet := TakePacket(mainBuckets, meta1, index);
      }
      slots := q'.slots;
    }

    /** The second half of `gq_push`: tell the tree if the bucket was empty, then append. */
    method AddPacket(buckets: array<seq<Packet>>, meta: array<Desc>, index: nat, packet: Packet)
      requires TreeOk(meta[..], buckets[..], l) && index < buckets.Length && meta.Length == s
      modifies buckets, meta
      ensures TreeOk(meta[..], buckets[..], l)
      ensures buckets[..] == old(buckets[..])[index := old(buckets[index]) + [packet]]
    {
      ghost var b := buckets[..];
      ghost var b' := b[index := b[index] + [packet]];
      if buckets[index] == [] {
        AddBucket(meta, s, l, index, b, b');
      } else {
        OccupancyOnly(meta[..], b, b', l);
      }
      buckets[index] := buckets[index] + [packet];
      assert buckets[..] == b';
    }

    /** The second half of `gq_extract`: take the head of a bucket and tell the tree if it ran empty. */
    method TakePacket(buckets: array<seq<Packet>>, meta: array<Desc>, index: nat) returns (skb: Packet)
      requires TreeOk(meta[..], buckets[..], l) && index < buckets.Length && meta.Length == s
      requires buckets[index] != []
      modifies buckets, meta
      ensures TreeOk(meta[..], buckets[..], l)
      ensures skb == old(buckets[index][0])
      ensures buckets[..] == old(buckets[..])[index := old(buckets[index])[1..]]
    {
      ghost var b := buckets[..];
      skb := buckets[index][0];
      buckets[index] := buckets[index][1..];
      ghost var b' := b[index := b[index][1..]];
      assert buckets[..] == b';
      if buckets[index] == [] {
        RemoveBucket(meta, s, l, index, b, b');
      } else {
        OccupancyOnly(meta[..], b, b', l);
      }
    }

    /** `gq_extract`: the packet if one is due, and the index of the least non-empty bucket. */
    method GqExtract(now: nat) returns (skb: Option<Packet>, index: int)
      requires Valid()
      modifies this`mainTs, this`bufferTs, this`maxTs, this`numOfElements, this`slots, Repr()
      ensures Valid()
      ensures skb.Some? <==> Due(old(State()), now)
      ensures old(slots).Keys == {} ==> State() == Restarted(old(State()), now)
      ensures skb.None? && old(slots).Keys != {} ==>
                State() == old(State()) && meta1.Length > 0 && 0 <= index
                && MinSlot(slots) == index * k.g + (if meta1[0].c > 0 then mainTs else bufferTs)
      ensures skb.Some? ==> Extracted(old(State()), State(), skb.value)
    {
      index := GetMinIndex();
      MatchesEmpty(k, slots, mainBuckets[..], bufferBuckets[..], mainTs, now);
      RestartIfEmpty(now);
      if numOfElements == 0 {
        return None, index;
      }
      var buffer := meta1[0].c == 0;
      LeastSlot(buffer, index);
      var baseTs := if buffer then bufferTs else mainTs;
      var skbTs := index * k.g + baseTs;
      if skbTs > now {
        return None, index;
      }
      var packet := TakeAt(buffer, index);
      skb := Some(packet);
    }

    lemma LeastSlot(buffer: bool, index: nat)
      requires Valid() && index < k.n
      requires LeastAt(mainBuckets[..], bufferBuckets[..], Position(k, buffer, index))
      ensures slots.Keys != {}
      ensures MinSlot(slots) == index * k.g + (if buffer then bufferTs else mainTs)
    {
      MatchesMin(k, slots, mainBuckets[..], bufferBuckets[..], mainTs, Position(k, buffer, index));
      SlotAtShift(k, mainTs, k.n, index);
      TimesIsProduct(index, k.g);
    }

    /** The rotation in `gq_dequeue`. */
    method Rotate(now: nat)
      requires Valid()
      modifies this
      ensures Valid() && Repr() == old(Repr())
      ensures State() == Rotated(k, old(State()), now)
    {
      ghost var a, b := mainBuckets[..], bufferBuckets[..];
      RootCount(meta1[..], a, l);
      MatchesMainEmpty(k, slots, a, b, mainTs);
      if bufferTs < now && meta1[0].c == 0 {
        MatchesRotate(k, slots, a, b, mainTs);
        mainBuckets, bufferBuckets := bufferBuckets, mainBuckets;
        meta1, meta2 := meta2, meta1;
        mainTs, bufferTs := bufferTs, bufferTs + horizon;
        maxTs := bufferTs + horizon;
      }
    }

    /** The watchdog of `gq_dequeue`: nothing is due, and the first packet is in bucket `index`. */
    method FirstPacketTime(index: int, now: nat, lastExpires: nat) returns (watchdog: Option<nat>)
      requires numOfElements == |Order(slots)| && NoEmptySlot(slots)
      requires slots.Keys != {} ==>
        meta1.Length > 0 && now < MinSlot(slots) == index * k.g + (if meta1[0].c > 0 then mainTs else bufferTs)
      ensures watchdog == if slots.Keys == {} then None else Some(MinSlot(slots))
    {
      OrderEmpty(slots);
      if numOfElements == 0 {
        return None;
      }
      var timeOfMinPkt := index * k.g + (if meta1[0].c > 0 then mainTs else bufferTs);
      if timeOfMinPkt > lastExpires && timeOfMinPkt < now {
        return None;
      }
      watchdog := Some(timeOfMinPkt);
    }

    /** `gq_dequeue`; `lastExpires` is what the watchdog was last armed for. */
    method GqDequeue(now: nat, lastExpires: nat) returns (skb: Option<Packet>, watchdog: Option<nat>)
      requires Valid()
      modifies this, Repr()
      ensures Valid() && Repr() == old(Repr())
      ensures DequeueSpec(k, old(State()), now) == Served(State(), skb, watchdog)
    {
      ghost var q := State();
      assert NoEmptySlot(q.slots);
      var index;
      watchdog := None;
      skb, index := GqExtract(now);
      if skb.None? {
        NothingServed(k, q, now);
        watchdog := FirstPacketTime(index, now, lastExpires);
        return;
      }
      HeadServed(k, q, State(), skb.value, now);
      Rotate(now);
    }

    /** `gq_enqueue` without segmentation. */
    method GqEnqueue(skb: Packet, now: nat) returns (accepted: bool)
      requires Valid()
      modifies this`mainTs, this`bufferTs, this`maxTs, this`numOfElements, this`slots, Repr()
      ensures Valid()
      ensures accepted <==> Accepts(k, old(State()))
      ensures State() == EnqueueSpec(k, old(State()), skb, now)
    {
      ghost var q := State();
      RestartIfEmpty(now);
      accepted := numOfElements < k.limit;
      if accepted {
        GqPush(skb);
      }
      assert State() == EnqueueSpec(k, q, skb, now);
    }
  }

  /** The least live slot of `q` was due and its first packet was taken. */
  ghost predicate Extracted(q: Queue, q': Queue, skb: Packet) {
    && q.slots.Keys != {} && q.slots[MinSlot(q.slots)] != []
    && skb == q.slots[MinSlot(q.slots)][0]
    && q' == q.(slots := RemoveFirst(q.slots, MinSlot(q.slots)))
  }

  lemma HeadServed(k: Config, q: Queue, q': Queue, skb: Packet, now: nat)
    requires NoEmptySlot(q.slots) && Due(q, now) && Extracted(q, q', skb)
    ensures DequeueSpec(k, q, now) == Served(Rotated(k, q', now), Some(skb), None)
  {
  }

  lemma NothingServed(k: Config, q: Queue, now: nat)
    requires NoEmptySlot(q.slots) && !Due(q, now)
    ensures DequeueSpec(k, q, now) ==
      if q.slots.Keys == {} then Served(Restarted(q, now), None, None) else Served(q, None, Some(MinSlot(q.slots)))
    ensures q.slots.Keys != {} ==> MinSlot(q.slots) > now
  {
  }

  /** Taking the head of the least non-empty bucket takes the head of the least slot. */
  lemma RowAdd(k: Config, q: Queue, a: Buckets, b: Buckets, buffer: bool, index: nat, p: Packet) returns (m: Slots)
    requires ConfigOk(k) && Matches(k, q.slots, a, b, q.main) && index < k.n
    ensures m == Insert(q.slots, SlotAt(k, q.main, Position(k, buffer, index)), p) && |Order(m)| == |Order(q.slots)| + 1
    ensures Matches(k, m, if buffer then a else a[index := a[index] + [p]],
                    if buffer then b[index := b[index] + [p]] else b, q.main)
  {
    var slot := SlotAt(k, q.main, Position(k, buffer, index));
    m := Insert(q.slots, slot, p);
    OrderInsert(q.slots, slot, p, End(q.slots) + slot + 1);
    MatchesChange(k, q.slots, m, a, b, q.main, buffer, index, (if buffer then b[index] else a[index]) + [p]);
  }

  lemma RowTake(k: Config, q: Queue, a: Buckets, b: Buckets, buffer: bool, index: nat) returns (q': Queue)
    requires ConfigOk(k) && Matches(k, q.slots, a, b, q.main) && index < k.n
    requires LeastAt(a, b, Position(k, buffer, index))
    ensures (if buffer then b[index] else a[index]) != []
    ensures Extracted(q, q', (if buffer then b[index] else a[index])[0])
    ensures Matches(k, q'.slots, if buffer then a else a[index := a[index][1..]],
                    if buffer then b[index := b[index][1..]] else b, q.main)
    ensures |Order(q.slots)| == |Order(q'.slots)| + 1
  {
    MatchesMin(k, q.slots, a, b, q.main, Position(k, buffer, index));
    OrderRemoveMin(q.slots);
    RemoveFirstFifo(q.slots, MinSlot(q.slots));
    q' := q.(slots := RemoveFirst(q.slots, MinSlot(q.slots)));
    MatchesChange(k, q.slots, q'.slots, a, b, q.main, buffer, index, (if buffer then b[index] else a[index])[1..]);
  }

  /** The state `gq_init` gives a tree node; the links of the root wrap around and are never followed. */
  function InitialDesc(i: nat): Desc {
    var j := if i == 0 then 0xFFFF_FFFF_FFFF_FFFF else i - 1;
    Desc(0, 0, j / W, j % W)
  }

  lemma FreshTree(m: seq<Desc>, b: Buckets, l: nat)
    requires l > 0 && |m| == LevelStart(l) && |b| <= Span(1, l)
    requires forall i :: 0 <= i < |m| ==> m[i] == InitialDesc(i)
    requires forall i :: 0 <= i < |b| ==> b[i] == []
    ensures TreeOk(m, b, l)
  {
    forall n | 0 <= n < |m| ensures NodeOk(m, b, n) {
      ZeroSum(m, b, n, W);
      forall j: nat ensures !TestBit(0, j) {
        ZeroHasNoBits(j);
      }
    }
    forall n | 0 < n < |m| ensures m[n].abcI == Parent(n) && m[n].wwI == Slot(n) {
      ChildOfParent(n);
    }
  }
}

/**
 When FlowBundler releases a packet, against the queue id it was enqueued with and its send time after clamping
 (kernel/sch_dfb/sch_dfb.c:337-378, 538-608). Both are kept beside the calendar, one tag for each packet.
 */
module DfbRelease {
  import opened Words
  import opened Wrappers
  import opened SlotMap
  import opened DfbTime
  import opened DfbSpec

  /**
   What enqueueing decided about a packet: its queue id, its send time clamped to the calendar's horizon, and the
   end of that horizon.
   */
  datatype Tag = Tag(packet: Packet, q: nat, send: nat, reach: nat)

  type Tags = map<nat, seq<Tag>>

  /** Each queued packet carries its tag, and the slot it is in is the one that its tag names. */
  ghost predicate Tagged(m: Slots, tags: Tags) {
    && tags.Keys == m.Keys
    && forall t :: t in m ==> |tags[t]| == |m[t]| && TagsFit(t, m[t], tags[t])
  }

  ghost predicate TagsFit(t: nat, packets: seq<Packet>, tags: seq<Tag>) {
    |tags| == |packets| &&
    forall i :: 0 <= i < |tags| ==>
      tags[i].packet == packets[i] && SlotTime(tags[i].q, tags[i].send) == t && OwnTime(tags[i])
  }

  /** A packet within reach is not sent before its own time; one beyond it is sent at the end of the horizon. */
  ghost predicate OwnTime(tag: Tag) {
    if tag.packet.stamp <= tag.reach then tag.packet.stamp <= tag.send else tag.send == tag.reach
  }

  function TagsAt(tags: Tags, t: nat): seq<Tag> {
    if t in tags then tags[t] else []
  }

  ghost function EnqueueTags(c: Calendar, tags: Tags, q: nat, p: Packet): Tags {
    var send := Clamped(c, q, p);
    var t := SlotTime(q, send);
    var head := if c.slots.Keys == {} then MaskLow(p.stamp, q) else c.head;
    tags[t := TagsAt(tags, t) + [Tag(p, q, send, head + 1023 * Pow2(q))]]
  }

  ghost function DequeueTags(c: Calendar, tags: Tags, now: nat): Tags
    requires NoEmptySlot(c.slots) && Tagged(c.slots, tags)
  {
    if !Due(c, now) then tags
    else
      var t := MinSlot(c.slots);
      if |tags[t]| == 1 then tags - {t} else tags[t := tags[t][1..]]
  }

  lemma EnqueueKeepsTags(c: Calendar, tags: Tags, q: nat, p: Packet)
    requires Tagged(c.slots, tags)
    ensures Tagged(EnqueueSpec(c, q, p).slots, EnqueueTags(c, tags, q, p))
  {
    var send := Clamped(c, q, p);
    var t := SlotTime(q, send);
    if c.slots.Keys == {} {
      assert c.slots == map[];
    }
    var m' := EnqueueSpec(c, q, p).slots;
    assert m' == Insert(c.slots, t, p);
    Pow2Scaled(q);
    if t in c.slots {
      assert TagsFit(t, c.slots[t], tags[t]);
    }
    assert TagsFit(t, m'[t], EnqueueTags(c, tags, q, p)[t]);
  }

  lemma DequeueKeepsTags(c: Calendar, tags: Tags, now: nat)
    requires NoEmptySlot(c.slots) && Tagged(c.slots, tags)
    ensures Tagged(DequeueSpec(c, now).next.slots, DequeueTags(c, tags, now))
  {
    if Due(c, now) {
      var t := MinSlot(c.slots);
      assert TagsFit(t, c.slots[t], tags[t]);
      if |tags[t]| > 1 {
        assert TagsFit(t, c.slots[t][1..], tags[t][1..]);
      }
    }
  }

  // ----- the time of a release -----

  /** The tag of the packet that a dequeue at `now` returns. */
  ghost function ReleasedTag(c: Calendar, tags: Tags, now: nat): Tag
    requires NoEmptySlot(c.slots) && Tagged(c.slots, tags) && Due(c, now)
  {
    assert TagsFit(MinSlot(c.slots), c.slots[MinSlot(c.slots)], tags[MinSlot(c.slots)]);
    tags[MinSlot(c.slots)][0]
  }

  /**
   The packet is released no earlier than its slot comes within the scan; that instant is no earlier than its
   rounded send time exactly when the scan is no coarser than its own granule. Then a packet within reach does not
   leave before its own rounded time, and one beyond reach not before the end of the horizon.
   */
  ghost predicate OnTimeFor(tag: Tag, h: nat, now: nat) {
    && now >= Release(SlotTime(tag.q, tag.send), h)
    && (MaskLow(tag.send, tag.q) <= Release(SlotTime(tag.q, tag.send), h) <==> h <= tag.q)
    && (h <= tag.q && tag.packet.stamp <= tag.reach ==> now >= MaskLow(tag.packet.stamp, tag.q))
    && (h <= tag.q && tag.packet.stamp > tag.reach ==> now >= MaskLow(tag.reach, tag.q))
  }

  /**
   A packet is returned only when its own slot comes within one granule of the scan. That instant is no earlier
   than the packet's send time rounded down to its own granule exactly when the scan is no coarser than that.
   */
  lemma DequeueReleases(c: Calendar, tags: Tags, now: nat)
    requires Inv(c) && Tagged(c.slots, tags) && Due(c, now)
    ensures var tag := ReleasedTag(c, tags, now);
      && DequeueSpec(c, now).packet == Some(tag.packet) && SlotTime(tag.q, tag.send) == MinSlot(c.slots)
      && OnTimeFor(tag, c.h, now)
      && (c.h <= tag.q ==> now >= MaskLow(tag.send, tag.q))
  {
    var t := MinSlot(c.slots);
    var tag := ReleasedTag(c, tags, now);
    assert SlotOk(c, t) && TagsFit(t, c.slots[t], tags[t]);
    ReleaseNotEarly(tag.q, tag.send, c.h);
    if tag.packet.stamp <= tag.reach {
      SlotTimeMonotone(tag.q, tag.packet.stamp, tag.send);
      SlotTimeBounds(tag.q, tag.packet.stamp);
      SlotTimeBounds(tag.q, tag.send);
    }
  }

  /** Nor is it late: one granule after the send time of a queued packet, a dequeue returns a packet. */
  lemma DequeueNotLate(c: Calendar, tags: Tags, now: nat, t: nat, i: nat)
    requires Inv(c) && Tagged(c.slots, tags) && t in c.slots && i < |tags[t]|
    requires tags[t][i].send + Pow2(tags[t][i].q) <= now
    ensures DequeueSpec(c, now).packet.Some?
  {
    var tag := tags[t][i];
    assert TagsFit(t, c.slots[t], tags[t]);
    SlotTimeBounds(tag.q, tag.send);
    DueSlotIsServed(c, now, t);
  }

  // ----- whole runs -----

  ghost function StepTags(c: Calendar, tags: Tags, op: Op, limit: nat): Tags
    requires NoEmptySlot(c.slots) && Tagged(c.slots, tags)
  {
    match op
    case Enqueue(rate, p) => if Accepts(c, limit) then EnqueueTags(c, tags, FindQueueIndex(rate), p) else tags
    case Dequeue(now) => DequeueTags(c, tags, now)
  }

  lemma StepKeepsTags(c: Calendar, tags: Tags, op: Op, limit: nat)
    requires NoEmptySlot(c.slots) && Tagged(c.slots, tags)
    ensures Tagged(Step(c, op, limit).0.slots, StepTags(c, tags, op, limit))
  {
    match op
    case Enqueue(rate, p) => EnqueueKeepsTags(c, tags, FindQueueIndex(rate), p);
    case Dequeue(now) => DequeueKeepsTags(c, tags, now);
  }

  /** Every packet that the run returns was on time for its own tag. */
  ghost predicate AllOnTimeFor(c: Calendar, tags: Tags, ops: seq<Op>, limit: nat)
    requires NoEmptySlot(c.slots) && Tagged(c.slots, tags)
    decreases |ops|
  {
    ops == [] ||
    (StepKeepsTags(c, tags, ops[0], limit);
     && (ops[0].Dequeue? && Due(c, ops[0].now) ==>
           var tag := ReleasedTag(c, tags, ops[0].now);
           Step(c, ops[0], limit).1 == [tag.packet] && OnTimeFor(tag, c.h, ops[0].now))
     && AllOnTimeFor(Step(c, ops[0], limit).0, StepTags(c, tags, ops[0], limit), ops[1..], limit))
  }

  /** Over any run in which no dequeue rewinds too far, every packet is on time for its own tag. */
  lemma {:induction false} RunReleasesOnTime(c: Calendar, tags: Tags, ops: seq<Op>, limit: nat)
    requires Inv(c) && Tagged(c.slots, tags) && AllAllowed(c, ops, limit)
    ensures AllOnTimeFor(c, tags, ops, limit)
    decreases |ops|
  {
    if ops != [] {
      StepKeepsTags(c, tags, ops[0], limit);
      StepSound(c, ops[0], limit);
      if ops[0].Dequeue? && Due(c, ops[0].now) {
        DequeueReleases(c, tags, ops[0].now);
      }
      RunReleasesOnTime(Step(c, ops[0], limit).0, StepTags(c, tags, ops[0], limit), ops[1..], limit);
    }
  }

  // ----- when the scan is coarser than the packet's own granule -----

  /**
   Once the last packet of the finest level is gone the scan gets coarser, and may release a packet of a fine flow
   early: packets sent at 0 and 1023 by flows of queue id 0 are both returned at time 0.
   */
  lemma CoarserScanReleasesEarly(c: Calendar, first: Packet, second: Packet)
    requires c == Calendar(map[], 0, QUEUE_NUM - 1) && first.stamp == 0 && second.stamp == 1023
    ensures Inv(c)
    ensures var queued := EnqueueSpec(EnqueueSpec(c, 0, first), 0, second);
      && Inv(queued) && Clamped(EnqueueSpec(c, 0, first), 0, second) == 1023
      && var r := DequeueSpec(queued, 0);
         && r.packet == Some(first) && r.next.h == 10
         && DequeueSpec(r.next, 0).packet == Some(second)
  {
    FirstSlots(c, first, second);
    SecondSlots(Calendar(map[1 := [first], 1024 := [second]], 0, 0), first, second);
  }

  lemma FirstSlots(c: Calendar, first: Packet, second: Packet)
    requires c == Calendar(map[], 0, QUEUE_NUM - 1) && first.stamp == 0 && second.stamp == 1023
    ensures Inv(c) && Inv(EnqueueSpec(c, 0, first)) && Inv(EnqueueSpec(EnqueueSpec(c, 0, first), 0, second))
    ensures Clamped(EnqueueSpec(c, 0, first), 0, second) == 1023
    ensures EnqueueSpec(EnqueueSpec(c, 0, first), 0, second) == Calendar(map[1 := [first], 1024 := [second]], 0, 0)
  {
    Pow2Monotone(11, 62);
    Pow2Scaled(0);
    var c1 := EnqueueSpec(c, 0, first);
    EnqueueKeepsInv(c, 0, first);
    EnqueueKeepsInv(c1, 0, second);
    assert [] + [first] == [first] && [] + [second] == [second];
    assert MaskLow(0, 0) == 0 && SlotTime(0, 0) == 1 && SlotTime(0, 1023) == 1024;
    assert Clamped(c, 0, first) == 0;
    assert c1 == Calendar(map[1 := [first]], 0, 0);
    assert Clamped(c1, 0, second) == 1023;
  }

  lemma SecondSlots(c: Calendar, first: Packet, second: Packet)
    requires c == Calendar(map[1 := [first], 1024 := [second]], 0, 0)
    ensures var r := DequeueSpec(c, 0);
      && r.packet == Some(first) && r.next.h == 10
      && DequeueSpec(r.next, 0).packet == Some(second)
  {
    assert MinSlot(c.slots) == 1 && Pow2(0) == 1;
    var slots := RemoveFirst(c.slots, 1);
    assert slots == map[1024 := [second]];
    Pow2Scaled(0);
    ShlIsMultiple(1, 10);
    FfsShl(1, 10);
    assert Level(1024) == 10;
    var k := MinLevel(slots);
    assert forall t :: t in slots ==> t == 1024;
    assert k == 10;
    assert MinSlot(slots) == 1024;
  }
}

/**
 Eiffel's circular gradient queue as a sorted map from absolute slot time to FIFO, across both
 bucket arrays (kernel/sch_eiffel/sch_eiffel.c:119-443). Module Eiffel refines it.
 */
module EiffelSpec {
  import opened Wrappers
  import opened SlotMap
  import opened Granules

  /** `g` is `grnlrty`, `n` is `num_of_buckets`; the horizon of one array is `g * n`. */
  datatype Config = Config(g: nat, n: nat, limit: nat)

  ghost predicate ConfigOk(k: Config) {
    k.g > 0 && k.n > 0
  }

  /** `main` is `main_ts`; `buffer_ts` and `max_ts` follow at distances of one horizon. */
  datatype Queue = Queue(slots: Slots, main: nat)

  datatype Served = Served(next: Queue, packet: Option<Packet>, watchdog: Option<nat>)

  function SlotAt(k: Config, base: nat, i: nat): nat {
    base + Times(i, k.g)
  }

  function BufferTs(k: Config, main: nat): nat {
    SlotAt(k, main, k.n)
  }

  function MaxTs(k: Config, main: nat): nat {
    SlotAt(k, BufferTs(k, main), k.n)
  }

  lemma SlotAtOrder(k: Config, base: nat, i: nat, j: nat)
    requires ConfigOk(k) && i < j
    ensures SlotAt(k, base, i) < SlotAt(k, base, j)
  {
    TimesOrder(i, j, k.g);
  }

  lemma SlotAtShift(k: Config, base: nat, i: nat, j: nat)
    ensures SlotAt(k, SlotAt(k, base, i), j) == SlotAt(k, base, i + j)
  {
    TimesSum(i, j, k.g);
  }

  /** The number of the slot, counted from `main_ts` over both arrays, a stamp belongs to. */
  function SlotIndex(k: Config, main: nat, stamp: nat): (i: nat)
    requires ConfigOk(k)
    ensures i < 2 * k.n
  {
    if stamp <= main then 0
    else if Quot(stamp - main, k.g) < 2 * k.n then Quot(stamp - main, k.g)
    else 2 * k.n - 1
  }

  /** `gq_push` also clamps the packet's own time stamp. */
  function Stamped(k: Config, main: nat, p: Packet): Packet {
    if p.stamp <= main then p.(stamp := main)
    else if p.stamp >= MaxTs(k, main) then p.(stamp := MaxTs(k, main))
    else p
  }

  function PushSlot(k: Config, main: nat, p: Packet): nat
    requires ConfigOk(k)
  {
    SlotAt(k, main, SlotIndex(k, main, p.stamp))
  }

  function PushSpec(k: Config, q: Queue, p: Packet): Queue
    requires ConfigOk(k)
  {
    q.(slots := Insert(q.slots, PushSlot(k, q.main, p), Stamped(k, q.main, p)))
  }

  ghost predicate Accepts(k: Config, q: Queue) {
    |Order(q.slots)| < k.limit
  }

  /** An empty queue restarts its time stamps at `now`. */
  function Restarted(q: Queue, now: nat): Queue {
    if q.slots.Keys == {} then q.(main := now) else q
  }

  ghost function EnqueueSpec(k: Config, q: Queue, p: Packet, now: nat): Queue
    requires ConfigOk(k)
  {
    var q' := Restarted(q, now);
    if Accepts(k, q) then PushSpec(k, q', p) else q'
  }

  ghost predicate Due(q: Queue, now: nat) {
    q.slots.Keys != {} && MinSlot(q.slots) <= now
  }

  ghost predicate MainEmpty(k: Config, q: Queue) {
    forall t :: t in q.slots ==> t >= BufferTs(k, q.main)
  }

  /** The arrays trade places once the main one ran empty and its time has passed. */
  ghost function Rotated(k: Config, q: Queue, now: nat): Queue {
    if BufferTs(k, q.main) < now && MainEmpty(k, q) then q.(main := BufferTs(k, q.main)) else q
  }

  ghost function DequeueSpec(k: Config, q: Queue, now: nat): Served
    requires NoEmptySlot(q.slots)
  {
    if q.slots.Keys == {} then Served(Restarted(q, now), None, None)
    else
      var t := MinSlot(q.slots);
      if Due(q, now) then
        Served(Rotated(k, q.(slots := RemoveFirst(q.slots, t)), now), Some(q.slots[t][0]), None)
      else Served(q, None, Some(t))
  }

  // ----- the two bucket arrays as one row of slots -----

  ghost predicate OnGrid(k: Config, base: nat, t: nat, size: nat) {
    exists i: nat :: i < size && t == SlotAt(k, base, i)
  }

  /** Bucket `i` of the main array followed by the buffer array. */
  function At(a: Buckets, b: Buckets, i: nat): seq<Packet>
    requires i < |a| + |b|
  {
    if i < |a| then a[i] else b[i - |a|]
  }

  function Position(k: Config, buffer: bool, index: nat): nat {
    if buffer then k.n + index else index
  }

  /** The arrays `a` and `b`, whose first slot is `base`, hold exactly the packets of `m`. */
  ghost predicate Matches(k: Config, m: Slots, a: Buckets, b: Buckets, base: nat) {
    && |a| == k.n == |b| && NoEmptySlot(m)
    && (forall i: nat {:trigger SlotAt(k, base, i)} :: i < 2 * k.n ==> At(a, b, i) == Fifo(m, SlotAt(k, base, i)))
    && (forall t :: t in m ==> OnGrid(k, base, t, 2 * k.n))
  }

  ghost predicate LeastAt(a: Buckets, b: Buckets, i: nat) {
    i < |a| + |b| && At(a, b, i) != [] && forall j: nat :: j < i ==> At(a, b, j) == []
  }

  /** The packet's (clamped) stamp lies in its slot, or at the very end of it. */
  ghost predicate InSlot(k: Config, t: nat, p: Packet) {
    t <= p.stamp <= t + k.g
  }

  ghost predicate AllInSlot(k: Config, t: nat, packets: seq<Packet>) {
    forall i :: 0 <= i < |packets| ==> InSlot(k, t, packets[i])
  }

  ghost predicate Inv(k: Config, q: Queue) {
    && ConfigOk(k) && NoEmptySlot(q.slots)
    && (forall t :: t in q.slots ==> OnGrid(k, q.main, t, 2 * k.n))
    && (forall t :: t in q.slots ==> AllInSlot(k, t, q.slots[t]))
  }

  lemma SlotAtInjective(k: Config, base: nat, i: nat, j: nat)
    requires ConfigOk(k) && SlotAt(k, base, i) == SlotAt(k, base, j)
    ensures i == j
  {
    if i < j {
      SlotAtOrder(k, base, i, j);
    } else if j < i {
      SlotAtOrder(k, base, j, i);
    }
  }

  /** Giving one bucket and its slot a new FIFO keeps the match. */
  lemma MatchesChange(k: Config, m: Slots, m': Slots, a: Buckets, b: Buckets, base: nat,
                      buffer: bool, index: nat, x: seq<Packet>)
    requires ConfigOk(k) && Matches(k, m, a, b, base) && index < k.n && NoEmptySlot(m')
    requires Fifo(m', SlotAt(k, base, Position(k, buffer, index))) == x
    requires forall u: nat :: u != SlotAt(k, base, Position(k, buffer, index)) ==> Fifo(m', u) == Fifo(m, u)
    ensures Matches(k, m', if buffer then a else a[index := x], if buffer then b[index := x] else b, base)
  {
    var pos := Position(k, buffer, index);
    var t := SlotAt(k, base, pos);
    forall i: nat | i < 2 * k.n
      ensures At(if buffer then a else a[index := x], if buffer then b[index := x] else b, i) == Fifo(m', SlotAt(k, base, i))
    {
      if i != pos && SlotAt(k, base, i) == t {
        SlotAtInjective(k, base, i, pos);
      }
    }
    forall u | u in m' ensures OnGrid(k, base, u, 2 * k.n) {
      if u != t {
        assert Fifo(m, u) != [];
        assert u in m;
      }
    }
  }

  /** The least non-empty bucket is the least live slot. */
  lemma MatchesMin(k: Config, m: Slots, a: Buckets, b: Buckets, base: nat, i: nat)
    requires ConfigOk(k) && Matches(k, m, a, b, base) && LeastAt(a, b, i)
    ensures m.Keys != {} && MinSlot(m) == SlotAt(k, base, i)
    ensures m[MinSlot(m)] == At(a, b, i)
  {
    var t := SlotAt(k, base, i);
    assert t in m;
    var least := MinSlot(m);
    assert OnGrid(k, base, least, 2 * k.n);
    var j: nat :| j < 2 * k.n && least == SlotAt(k, base, j);
    assert At(a, b, j) != [];
    if i < j {
      SlotAtOrder(k, base, i, j);
    }
  }

  /** Rotating when the main array is empty moves the base, not the contents. */
  lemma MatchesRotate(k: Config, m: Slots, a: Buckets, b: Buckets, base: nat)
    requires ConfigOk(k) && Matches(k, m, a, b, base)
    requires forall i :: 0 <= i < |a| ==> a[i] == []
    ensures Matches(k, m, b, a, SlotAt(k, base, k.n))
  {
    var base' := SlotAt(k, base, k.n);
    forall t | t in m ensures OnGrid(k, base', t, 2 * k.n) {
      assert OnGrid(k, base, t, 2 * k.n);
      var i: nat :| i < 2 * k.n && t == SlotAt(k, base, i);
      assert At(a, b, i) != [];
      SlotAtShift(k, base, k.n, i - k.n);
      assert t == SlotAt(k, base', i - k.n);
    }
    forall i: nat | i < 2 * k.n ensures At(b, a, i) == Fifo(m, SlotAt(k, base', i)) {
      SlotAtShift(k, base, k.n, i);
      if i < k.n {
        assert At(a, b, k.n + i) == b[i];
      } else if SlotAt(k, base', i) in m {
        assert OnGrid(k, base, SlotAt(k, base', i), 2 * k.n);
        var j: nat :| j < 2 * k.n && SlotAt(k, base', i) == SlotAt(k, base, j);
        SlotAtInjective(k, base, k.n + i, j);
      }
    }
  }

  lemma MatchesEmpty(k: Config, m: Slots, a: Buckets, b: Buckets, base: nat, base': nat)
    requires Matches(k, m, a, b, base)
    ensures m.Keys == {} <==> forall i :: 0 <= i < k.n ==> a[i] == [] && b[i] == []
    ensures m.Keys == {} ==> Matches(k, m, a, b, base')
  {
    if m.Keys == {} {
      forall i | 0 <= i < k.n ensures a[i] == [] && b[i] == [] {
        assert At(a, b, i) == Fifo(m, SlotAt(k, base, i));
        assert At(a, b, k.n + i) == Fifo(m, SlotAt(k, base, k.n + i));
      }
    } else {
      var t :| t in m.Keys;
      assert OnGrid(k, base, t, 2 * k.n);
      var i: nat :| i < 2 * k.n && t == SlotAt(k, base, i);
      assert At(a, b, i) != [];
    }
  }

  /** The main array is empty exactly when no live slot lies before the buffer array. */
  lemma MatchesMainEmpty(k: Config, m: Slots, a: Buckets, b: Buckets, base: nat)
    requires ConfigOk(k) && Matches(k, m, a, b, base)
    ensures (forall i :: 0 <= i < |a| ==> a[i] == []) <==> MainEmpty(k, Queue(m, base))
  {
    if forall i :: 0 <= i < |a| ==> a[i] == [] {
      forall t | t in m ensures t >= BufferTs(k, base) {
        assert OnGrid(k, base, t, 2 * k.n);
        var i: nat :| i < 2 * k.n && t == SlotAt(k, base, i);
        assert At(a, b, i) != [];
        if k.n < i {
          SlotAtOrder(k, base, k.n, i);
        }
      }
    } else {
      var i :| 0 <= i < |a| && a[i] != [];
      assert At(a, b, i) == Fifo(m, SlotAt(k, base, i));
      SlotAtOrder(k, base, i, k.n);
    }
  }

  // ----- properties -----

  /** `gq_push` finds the slot by a case split over the two arrays; the slot index needs none. */
  lemma PushIndex(k: Config, main: nat, stamp: nat)
    requires ConfigOk(k)
    ensures stamp < BufferTs(k, main) ==>
              SlotIndex(k, main, stamp) == (if stamp <= main then 0 else Quot(stamp - main, k.g)) < k.n
    ensures stamp >= MaxTs(k, main) ==> SlotIndex(k, main, stamp) == 2 * k.n - 1
    ensures BufferTs(k, main) <= stamp < MaxTs(k, main) ==>
              SlotIndex(k, main, stamp) == k.n + Quot(stamp - BufferTs(k, main), k.g) < 2 * k.n
    ensures Quot(MaxTs(k, main) - BufferTs(k, main), k.g) == k.n
  {
    var g, n := k.g, k.n;
    TimesSum(n, n, g);
    QuotShift(0, n, g);
    if stamp > main {
      QuotBelow(stamp - main, g, n);
      QuotBelow(stamp - main, g, n + n);
    }
    if stamp >= BufferTs(k, main) {
      TimesOrder(0, n, g);
      QuotShift(stamp - BufferTs(k, main), n, g);
    }
  }

  /**
   Whatever its stamp, a packet is queued in a slot not after its clamped stamp; the gap is less than a granule,
   but for stamps clamped to the end of the queue's reach, where it is a whole one.
   */
  lemma SlotNearStamp(k: Config, main: nat, p: Packet)
    requires ConfigOk(k)
    ensures InSlot(k, PushSlot(k, main, p), Stamped(k, main, p))
    ensures Stamped(k, main, p).stamp == PushSlot(k, main, p) + k.g <==> p.stamp >= MaxTs(k, main)
    ensures main <= p.stamp <= MaxTs(k, main) ==> Stamped(k, main, p) == p
  {
    TimesSum(k.n, k.n, k.g);
    TimesOrder(0, k.n, k.g);
    if p.stamp > main {
      QuotBelow(p.stamp - main, k.g, 2 * k.n);
      QuotTimes(p.stamp - main, k.g);
    }
    TimesSum(2 * k.n - 1, 1, k.g);
    assert Times(1, k.g) == Times(0, k.g) + k.g;
  }

  /**
   What an enqueue does, in full: an empty queue starts at `now`. The packet keeps its identity, and its stamp if that
   is within the reach of the two arrays, else it gets the nearer end. Its slot, on the grid of the arrays, is the
   one of that stamp, or the last one for the very end.
   */
  lemma EnqueueSets(k: Config, q: Queue, p: Packet, now: nat) returns (t: nat)
    requires ConfigOk(k)
    ensures var main := if q.slots.Keys == {} then now else q.main;
      var end := main + Times(2 * k.n, k.g);
      var stamp := if p.stamp < main then main else if p.stamp <= end then p.stamp else end;
      && EnqueueSpec(k, q, p, now).main == main
      && EnqueueSpec(k, q, p, now).slots ==
           (if |Order(q.slots)| < k.limit then q.slots[t := Fifo(q.slots, t) + [Packet(p.id, stamp)]] else q.slots)
      && OnGrid(k, main, t, 2 * k.n) && t <= stamp && (if stamp == end then t + k.g == end else stamp < t + k.g)
  {
    var q' := Restarted(q, now);
    t := PushSlot(k, q'.main, p);
    SlotNearStamp(k, q'.main, p);
    TimesSum(k.n, k.n, k.g);
    if p.stamp > q'.main {
      QuotTimes(p.stamp - q'.main, k.g);
    }
  }

  /** Of two packets, the one with the later stamp never gets the earlier slot. */
  lemma LaterNotBefore(k: Config, main: nat, p: Packet, later: Packet)
    requires ConfigOk(k) && p.stamp <= later.stamp
    ensures PushSlot(k, main, p) <= PushSlot(k, main, later)
  {
    var i, j := SlotIndex(k, main, p.stamp), SlotIndex(k, main, later.stamp);
    if p.stamp > main {
      QuotMonotone(p.stamp - main, later.stamp - main, k.g);
    }
    if i < j {
      SlotAtOrder(k, main, i, j);
    }
  }

  lemma EnqueueKeepsInv(k: Config, q: Queue, p: Packet, now: nat)
    requires Inv(k, q)
    ensures Inv(k, EnqueueSpec(k, q, p, now))
  {
    var q' := Restarted(q, now);
    var r := EnqueueSpec(k, q, p, now);
    SlotNearStamp(k, q'.main, p);
    forall t | t in r.slots ensures OnGrid(k, r.main, t, 2 * k.n) && AllInSlot(k, t, r.slots[t]) {
      if t in q.slots {
        assert OnGrid(k, q.main, t, 2 * k.n) && AllInSlot(k, t, q.slots[t]);
      }
    }
  }

  lemma DequeueKeepsInv(k: Config, q: Queue, now: nat)
    requires Inv(k, q)
    ensures Inv(k, DequeueSpec(k, q, now).next)
  {
    if Due(q, now) {
      var q' := q.(slots := RemoveFirst(q.slots, MinSlot(q.slots)));
      OrderRemoveMin(q.slots);
      forall t | t in q'.slots ensures AllInSlot(k, t, q'.slots[t]) {
        assert AllInSlot(k, t, q.slots[t]);
      }
      forall t | t in q'.slots ensures OnGrid(k, Rotated(k, q', now).main, t, 2 * k.n) {
        assert OnGrid(k, q.main, t, 2 * k.n);
        var i: nat :| i < 2 * k.n && t == SlotAt(k, q.main, i);
        if MainEmpty(k, q') {
          if i < k.n {
            SlotAtOrder(k, q.main, i, k.n);
          }
          SlotAtShift(k, q.main, k.n, i - k.n);
          assert t == SlotAt(k, BufferTs(k, q.main), i - k.n);
        }
      }
    }
  }

  /** Dequeue returns the head of the service order exactly when the earliest slot is due, whatever rotates. */
  lemma DequeueServesHead(k: Config, q: Queue, now: nat)
    requires Inv(k, q)
    ensures var r := DequeueSpec(k, q, now);
      && (r.packet.Some? <==> Due(q, now))
      && Order(q.slots) == (if r.packet.Some? then [r.packet.value] else []) + Order(r.next.slots)
      && (r.watchdog.Some? <==> q.slots.Keys != {} && !Due(q, now))
      && (r.watchdog.Some? ==> r.watchdog.value == MinSlot(q.slots) > now)
  {
    if q.slots.Keys != {} {
      OrderRemoveMin(q.slots);
    }
  }

  /** A packet whose (clamped) stamp has come is not held back: some packet is returned. */
  lemma DueStampIsServed(k: Config, q: Queue, now: nat, t: nat, i: nat)
    requires Inv(k, q) && t in q.slots && i < |q.slots[t]| && q.slots[t][i].stamp <= now
    ensures DequeueSpec(k, q, now).packet == Some(q.slots[MinSlot(q.slots)][0])
  {
    assert AllInSlot(k, t, q.slots[t]);
  }

  /**
   The arrays move on only when a packet was returned: by one horizon, when its end has passed and nothing is left
   before it. An empty queue restarts at `now`.
   */
  lemma DequeueMovesMain(k: Config, q: Queue, now: nat)
    requires Inv(k, q)
    ensures var r := DequeueSpec(k, q, now);
      var next := q.main + Times(k.n, k.g);
      r.next.main ==
        if q.slots.Keys == {} then now
        else if r.packet.Some? && next < now && (forall t :: t in r.next.slots ==> next <= t) then next
        else q.main
  {
  }

  // ----- whole runs -----

  datatype Op = Enqueue(packet: Packet, now: nat) | Dequeue(now: nat)

  datatype Outcome = Outcome(queue: Queue, out: seq<Packet>, taken: multiset<Packet>)

  /** The stamp of an enqueued packet: its own, or the nearer end of the two arrays' reach. */
  function InReachStamp(k: Config, q: Queue, p: Packet, now: nat): (stamp: nat)
    requires ConfigOk(k)
    ensures var main := if q.slots.Keys == {} then now else q.main;
      var end := main + Times(2 * k.n, k.g);
      && main <= stamp <= end
      && (main <= p.stamp <= end ==> stamp == p.stamp)
      && (p.stamp < main ==> stamp == main) && (p.stamp > end ==> stamp == end)
  {
    TimesSum(k.n, k.n, k.g);
    Stamped(k, Restarted(q, now).main, p).stamp
  }

  ghost function Step(k: Config, q: Queue, op: Op): (r: Outcome)
    requires Inv(k, q)
    ensures Inv(k, r.queue)
  {
    match op
    case Enqueue(p, now) =>
      EnqueueKeepsInv(k, q, p, now);
      Outcome(EnqueueSpec(k, q, p, now), [],
              if |Order(q.slots)| < k.limit then multiset{Packet(p.id, InReachStamp(k, q, p, now))} else multiset{})
    case Dequeue(now) =>
      DequeueKeepsInv(k, q, now);
      var r := DequeueSpec(k, q, now);
      Outcome(r.next, if r.packet.Some? then [r.packet.value] else [], multiset{})
  }

  ghost function Run(k: Config, q: Queue, ops: seq<Op>): (r: Outcome)
    requires Inv(k, q)
    ensures Inv(k, r.queue)
    decreases |ops|
  {
    if ops == [] then Outcome(q, [], multiset{})
    else
      var r := Step(k, q, ops[0]);
      var rest := Run(k, r.queue, ops[1..]);
      Outcome(rest.queue, r.out + rest.out, r.taken + rest.taken)
  }

  /** The number of queued packets never exceeds the limit. */
  lemma StepKeepsLimit(k: Config, q: Queue, op: Op)
    requires Inv(k, q) && |Order(q.slots)| <= k.limit
    ensures |Order(Step(k, q, op).queue.slots)| <= k.limit
  {
    var r := Step(k, q, op);
    StepSound(k, q, op);
    assert |Contents(q.slots)| == |Order(q.slots)| && |Contents(r.queue.slots)| == |Order(r.queue.slots)|;
    assert |Contents(q.slots) + r.taken| == |multiset(r.out) + Contents(r.queue.slots)|;
  }

  lemma EnqueueContents(k: Config, q: Queue, p: Packet, now: nat)
    requires Inv(k, q)
    ensures Contents(EnqueueSpec(k, q, p, now).slots) == Contents(q.slots) +
      (if |Order(q.slots)| < k.limit then multiset{Packet(p.id, InReachStamp(k, q, p, now))} else multiset{})
  {
    if Accepts(k, q) {
      var q' := Restarted(q, now);
      var p' := Stamped(k, q'.main, p);
      assert p' == Packet(p.id, InReachStamp(k, q, p, now));
      ContentsInsert(q.slots, PushSlot(k, q'.main, p), p');
    }
  }

  lemma StepSound(k: Config, q: Queue, op: Op)
    requires Inv(k, q)
    ensures var r := Step(k, q, op);
      && Contents(q.slots) + r.taken == multiset(r.out) + Contents(r.queue.slots)
      && (op.Dequeue? ==> Order(q.slots) == r.out + Order(r.queue.slots))
  {
    match op
    case Enqueue(p, now) => EnqueueContents(k, q, p, now);
    case Dequeue(now) =>
      DequeueServesHead(k, q, now);
      var r := Step(k, q, op);
      assert multiset(r.out + Order(r.queue.slots)) == multiset(r.out) + multiset(Order(r.queue.slots));
  }

  /** Over any run, with any clock, no packet is lost, invented or duplicated. */
  lemma {:induction false} RunSound(k: Config, q: Queue, ops: seq<Op>)
    requires Inv(k, q)
    ensures var r := Run(k, q, ops);
      Contents(q.slots) + r.taken == multiset(r.out) + Contents(r.queue.slots)
    decreases |ops|
  {
    if ops != [] {
      var r := Step(k, q, ops[0]);
      StepSound(k, q, ops[0]);
      RunSound(k, r.queue, ops[1..]);
      var rest := Run(k, r.queue, ops[1..]);
      BalanceChains(Contents(q.slots), r.taken, r.out, Contents(r.queue.slots),
                    rest.taken, rest.out, Contents(rest.queue.slots));
    }
  }

  /** Between enqueues, a run serves a prefix of the service order, however often the arrays rotate. */
  lemma {:induction false} DrainServesInOrder(k: Config, q: Queue, ops: seq<Op>)
    requires Inv(k, q) && forall i :: 0 <= i < |ops| ==> ops[i].Dequeue?
    ensures var r := Run(k, q, ops); Order(q.slots) == r.out + Order(r.queue.slots)
    decreases |ops|
  {
    if ops != [] {
      var r := Step(k, q, ops[0]);
      StepSound(k, q, ops[0]);
      DrainServesInOrder(k, r.queue, ops[1..]);
      var rest := Run(k, r.queue, ops[1..]);
      OrderChains(Order(q.slots), r.out, Order(r.queue.slots), rest.out, Order(rest.queue.slots));
    }
  }

  /** A packet is returned at most one granule before its stamp. */
  lemma NotTooEarly(k: Config, q: Queue, now: nat)
    requires Inv(k, q)
    ensures var r := DequeueSpec(k, q, now); r.packet.Some? ==> r.packet.value.stamp <= now + k.g
  {
    if Due(q, now) {
      assert AllInSlot(k, MinSlot(q.slots), q.slots[MinSlot(q.slots)]);
    }
  }

  /** Every packet accepted in the run lies within reach of the arrays when it comes. */
  ghost predicate AllInReach(k: Config, q: Queue, ops: seq<Op>)
    requires Inv(k, q)
    decreases |ops|
  {
    ops == [] ||
    ((ops[0].Enqueue? && |Order(q.slots)| < k.limit ==>
        var main := if q.slots.Keys == {} then ops[0].now else q.main;
        main <= ops[0].packet.stamp <= main + Times(2 * k.n, k.g))
     && AllInReach(k, Step(k, q, ops[0]).queue, ops[1..]))
  }

  /** The packets accepted in the run, as they came. */
  ghost function Given(k: Config, q: Queue, ops: seq<Op>): multiset<Packet>
    requires Inv(k, q)
    decreases |ops|
  {
    if ops == [] then multiset{}
    else
      (if ops[0].Enqueue? && |Order(q.slots)| < k.limit then multiset{ops[0].packet} else multiset{})
      + Given(k, Step(k, q, ops[0]).queue, ops[1..])
  }

  lemma {:induction false} InReachTaken(k: Config, q: Queue, ops: seq<Op>)
    requires Inv(k, q) && AllInReach(k, q, ops)
    ensures Run(k, q, ops).taken == Given(k, q, ops)
    decreases |ops|
  {
    if ops != [] {
      InReachTaken(k, Step(k, q, ops[0]).queue, ops[1..]);
    }
  }

  /**
   Over a run in which all packets come within reach, the packets returned are those queued and given, unchanged, and
   none leaves more than a granule before its own stamp.
   */
  lemma InReachRun(k: Config, q: Queue, ops: seq<Op>)
    requires Inv(k, q) && AllInReach(k, q, ops)
    ensures var r := Run(k, q, ops);
      Contents(q.slots) + Given(k, q, ops) == multiset(r.out) + Contents(r.queue.slots)
    ensures NeverEarly(k, q, ops)
  {
    InReachTaken(k, q, ops);
    RunSound(k, q, ops);
    RunNotTooEarly(k, q, ops);
  }

  /** Every packet that a run returns is returned at most one granule before its stamp. */
  ghost predicate NeverEarly(k: Config, q: Queue, ops: seq<Op>)
    requires Inv(k, q)
    decreases |ops|
  {
    ops == [] ||
    var r := Step(k, q, ops[0]);
    && (forall i :: 0 <= i < |r.out| ==> r.out[i].stamp <= ops[0].now + k.g)
    && NeverEarly(k, r.queue, ops[1..])
  }

  /** With any clock, and however often the arrays rotate, no run returns a packet more than a granule early. */
  lemma {:induction false} RunNotTooEarly(k: Config, q: Queue, ops: seq<Op>)
    requires Inv(k, q)
    ensures NeverEarly(k, q, ops)
    decreases |ops|
  {
    if ops != [] {
      if ops[0].Dequeue? {
        NotTooEarly(k, q, ops[0].now);
      }
      RunNotTooEarly(k, Step(k, q, ops[0]).queue, ops[1..]);
    }
  }
}

/**
 The reference structure behind every pacing queue: a sorted map from time slot to the FIFO of
 packets queued in that slot, and the service order it stands for.
 */
module SlotMap {
  /** A packet: its identity and its time stamp (`skb_mstamp_ns`). */
  datatype Packet = Packet(id: nat, stamp: nat)

  type Slots = map<nat, seq<Packet>>

  /** An array of bucket FIFOs. */
  type Buckets = seq<seq<Packet>>

  ghost predicate NoEmptySlot(m: Slots) {
    forall t :: t in m ==> m[t] != []
  }

  function Fifo(m: Slots, t: nat): seq<Packet> {
    if t in m then m[t] else []
  }

  function Insert(m: Slots, t: nat, p: Packet): Slots {
    m[t := Fifo(m, t) + [p]]
  }

  function RemoveFirst(m: Slots, t: nat): Slots
    requires t in m && m[t] != []
  {
    if |m[t]| == 1 then m - {t} else m[t := m[t][1..]]
  }

  /** Every live slot is before time `n`. */
  ghost predicate Before(m: Slots, n: nat) {
    forall t :: t in m ==> t < n
  }

  lemma {:induction false} BoundExists(m: Slots)
    ensures exists n :: Before(m, n)
    decreases |m|
  {
    if m.Keys == {} {
      assert Before(m, 0);
    } else {
      var x :| x in m.Keys;
      BoundExists(m - {x});
      var n :| Before(m - {x}, n);
      forall t | t in m ensures t < n + x + 1 {
        assert t == x || t in m - {x};
      }
      assert Before(m, n + x + 1);
    }
  }

  lemma {:induction false} LeastExists(m: Slots, n: nat)
    requires exists t :: t in m && t < n
    ensures exists t :: t in m && forall u :: u in m ==> t <= u
  {
    if exists t :: t in m && t < n - 1 {
      LeastExists(m, n - 1);
    } else {
      assert n - 1 in m && forall u :: u in m ==> n - 1 <= u;
    }
  }

  /** The smallest live slot. */
  ghost function MinSlot(m: Slots): (t: nat)
    requires m.Keys != {}
    ensures t in m && forall u :: u in m ==> t <= u
  {
    var x :| x in m.Keys;
    assert x in m && x < x + 1;
    LeastExists(m, x + 1);
    var t :| t in m && forall u :: u in m ==> t <= u;
    t
  }

  /** The packets of the slots `lo <= t < hi`, slot by slot, FIFO within a slot. */
  ghost function Range(m: Slots, lo: nat, hi: nat): seq<Packet>
    decreases hi
  {
    if hi <= lo then [] else Range(m, lo, hi - 1) + Fifo(m, hi - 1)
  }

  /** A time after every live slot. */
  ghost function End(m: Slots): (n: nat)
    ensures Before(m, n)
  {
    BoundExists(m);
    var n :| Before(m, n);
    n
  }

  /** The order in which the queued packets are served. */
  ghost function Order(m: Slots): seq<Packet> {
    Range(m, 0, End(m))
  }

  /** The multiset of queued packets. */
  ghost function Contents(m: Slots): multiset<Packet> {
    multiset(Order(m))
  }

  lemma {:induction false} RangeSplit(m: Slots, a: nat, b: nat, c: nat)
    requires a <= b <= c
    ensures Range(m, a, c) == Range(m, a, b) + Range(m, b, c)
    decreases c
  {
    if b < c {
      RangeSplit(m, a, b, c - 1);
      assert Range(m, a, c) == Range(m, a, b) + (Range(m, b, c - 1) + Fifo(m, c - 1));
    }
  }

  lemma {:induction false} RangeAgrees(m: Slots, m': Slots, a: nat, b: nat)
    requires forall t: nat :: a <= t < b ==> Fifo(m, t) == Fifo(m', t)
    ensures Range(m, a, b) == Range(m', a, b)
    decreases b
  {
    if a < b {
      RangeAgrees(m, m', a, b - 1);
    }
  }

  lemma {:induction false} RangeEmpty(m: Slots, a: nat, b: nat)
    requires forall t: nat :: a <= t < b ==> t !in m
    ensures Range(m, a, b) == []
    decreases b
  {
    if a < b {
      RangeEmpty(m, a, b - 1);
    }
  }

  lemma OrderAt(m: Slots, n: nat)
    requires Before(m, n)
    ensures Order(m) == Range(m, 0, n)
  {
    if n <= End(m) {
      RangeSplit(m, 0, n, End(m));
      RangeEmpty(m, n, End(m));
    } else {
      RangeSplit(m, 0, End(m), n);
      RangeEmpty(m, End(m), n);
    }
  }

  /** A slot in the middle: the service order is what precedes it, its FIFO and what follows it. */
  lemma OrderAround(m: Slots, t: nat, n: nat)
    requires t < n && Before(m, n)
    ensures Order(m) == Range(m, 0, t) + Fifo(m, t) + Range(m, t + 1, n)
  {
    OrderAt(m, n);
    RangeSplit(m, 0, t + 1, n);
  }

  /** Inserting puts the packet behind everything up to its slot and before everything later. */
  lemma OrderInsert(m: Slots, t: nat, p: Packet, n: nat)
    requires t < n && Before(m, n)
    ensures Order(m) == Range(m, 0, t + 1) + Range(m, t + 1, n)
    ensures Order(Insert(m, t, p)) == Range(m, 0, t + 1) + [p] + Range(m, t + 1, n)
  {
    var m' := Insert(m, t, p);
    OrderAt(m, n);
    RangeSplit(m, 0, t + 1, n);
    OrderAround(m', t, n);
    RangeAgrees(m, m', 0, t);
    RangeAgrees(m, m', t + 1, n);
    assert Range(m, 0, t) + (Fifo(m, t) + [p]) == Range(m, 0, t + 1) + [p];
  }

  lemma RemoveFirstFifo(m: Slots, t: nat)
    requires NoEmptySlot(m) && t in m
    ensures var m' := RemoveFirst(m, t);
      && NoEmptySlot(m')
      && Fifo(m', t) == m[t][1..]
      && (forall u: nat :: u != t ==> Fifo(m', u) == Fifo(m, u))
      && (forall u :: u in m' ==> u in m)
  {
  }

  /** Removing from slot `t` takes the first packet after everything earlier. */
  lemma OrderRemove(m: Slots, t: nat)
    requires NoEmptySlot(m) && t in m
    ensures Order(m) == Range(m, 0, t) + m[t] + Range(m, t + 1, End(m))
    ensures Order(RemoveFirst(m, t)) == Range(m, 0, t) + m[t][1..] + Range(m, t + 1, End(m))
  {
    var m', n := RemoveFirst(m, t), End(m);
    RemoveFirstFifo(m, t);
    OrderAround(m, t, n);
    OrderAround(m', t, n);
    RangeAgrees(m, m', 0, t);
    RangeAgrees(m, m', t + 1, n);
  }

  /** Removing from the smallest slot takes exactly the head of the service order. */
  lemma OrderRemoveMin(m: Slots)
    requires m.Keys != {} && NoEmptySlot(m)
    ensures NoEmptySlot(RemoveFirst(m, MinSlot(m)))
    ensures Order(m) == [m[MinSlot(m)][0]] + Order(RemoveFirst(m, MinSlot(m)))
  {
    var t := MinSlot(m);
    RemoveFirstFifo(m, t);
    OrderRemove(m, t);
    RangeEmpty(m, 0, t);
    HeadAndTail(m[t], Range(m, t + 1, End(m)));
  }

  lemma HeadAndTail(s: seq<Packet>, rest: seq<Packet>)
    requires s != []
    ensures [] + s + rest == [s[0]] + ([] + s[1..] + rest)
  {
  }

  lemma ContentsInsert(m: Slots, t: nat, p: Packet)
    ensures Contents(Insert(m, t, p)) == Contents(m) + multiset{p}
  {
    OrderInsert(m, t, p, End(m) + t + 1);
  }

  /** Only the empty map has nothing to serve. */
  lemma OrderEmpty(m: Slots)
    requires NoEmptySlot(m)
    ensures Order(m) == [] <==> m.Keys == {}
  {
    if m.Keys != {} {
      OrderRemoveMin(m);
    } else {
      RangeEmpty(m, 0, End(m));
    }
  }

  /** Composing two steps of a run: service order and conservation. */
  lemma OrderChains(a: seq<Packet>, x: seq<Packet>, b: seq<Packet>, y: seq<Packet>, c: seq<Packet>)
    requires a == x + b && b == y + c
    ensures a == (x + y) + c
  {
  }

  lemma BalanceChains(a: multiset<Packet>, i: multiset<Packet>, x: seq<Packet>, b: multiset<Packet>,
                      j: multiset<Packet>, y: seq<Packet>, c: multiset<Packet>)
    requires a + i == multiset(x) + b && b + j == multiset(y) + c
    ensures a + (i + j) == multiset(x + y) + c
  {
    assert multiset(x + y) == multiset(x) + multiset(y);
    calc {
      a + (i + j);
      (a + i) + j;
      (multiset(x) + b) + j;
      multiset(x) + (b + j);
      multiset(x) + (multiset(y) + c);
      multiset(x + y) + c;
    }
  }
}

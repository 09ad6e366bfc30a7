/** The wakeup queue and the leaf backoff of the schedulers (bess/core/scheduler.h). */
module SchedulerSpec {
  import opened Wrappers
  import opened Stride
  import opened TokenBucket
  import opened TrafficClass
  import opened TcUnblock
  import opened TcAccount

  // ----- the wakeup queue -----

  function WakeOf(st: Store, c: Id): nat {
    if c in st then WakeupTime(st[c].body) else 0
  }

  /** `SchedWakeupQueue::Add`: a min-priority queue by wakeup time. */
  function Enqueued(st: Store, q: seq<Id>, c: Id): (r: seq<Id>)
    ensures |r| == |q| + 1
  {
    if q == [] || WakeOf(st, c) < WakeOf(st, q[0]) then [c] + q else [q[0]] + Enqueued(st, q[1..], c)
  }

  ghost predicate QueueSorted(st: Store, q: seq<Id>) {
    forall i, j :: 0 <= i < j < |q| ==> WakeOf(st, q[i]) <= WakeOf(st, q[j])
  }

  /** Each class with a wakeup time is queued once, and nobody else; the earliest comes first. */
  ghost predicate QueueOk(st: Store, q: seq<Id>) {
    && NoDup(q) && QueueSorted(st, q)
    && forall c :: c in q <==> WakeOf(st, c) != 0
  }

  lemma {:induction false} EnqueuedMembers(st: Store, q: seq<Id>, c: Id)
    ensures forall d :: d in Enqueued(st, q, c) <==> d == c || d in q
  {
    if q == [] || WakeOf(st, c) < WakeOf(st, q[0]) {
    } else {
      EnqueuedMembers(st, q[1..], c);
      assert q == [q[0]] + q[1..];
    }
  }

  lemma {:induction false} EnqueuedNoDup(st: Store, q: seq<Id>, c: Id)
    requires NoDup(q) && c !in q
    ensures NoDup(Enqueued(st, q, c))
  {
    if q == [] || WakeOf(st, c) < WakeOf(st, q[0]) {
    } else {
      EnqueuedNoDup(st, q[1..], c);
      EnqueuedMembers(st, q[1..], c);
      var r := Enqueued(st, q[1..], c);
      forall i | 0 <= i < |r| ensures r[i] != q[0] {
        assert r[i] in r;
      }
    }
  }

  lemma {:induction false} EnqueuedSorted(st: Store, q: seq<Id>, c: Id)
    requires QueueSorted(st, q)
    ensures QueueSorted(st, Enqueued(st, q, c))
  {
    if q == [] || WakeOf(st, c) < WakeOf(st, q[0]) {
    } else {
      EnqueuedSorted(st, q[1..], c);
      EnqueuedMembers(st, q[1..], c);
      var r := Enqueued(st, q[1..], c);
      forall i | 0 <= i < |r| ensures WakeOf(st, q[0]) <= WakeOf(st, r[i]) {
        assert r[i] in r;
      }
    }
  }

  /** Queueing a class that just got a wakeup time. */
  lemma QueuePush(st: Store, st': Store, q: seq<Id>, c: Id)
    requires QueueOk(st, q) && WakeOf(st, c) == 0 && WakeOf(st', c) != 0
    requires forall d :: d != c ==> WakeOf(st', d) == WakeOf(st, d)
    ensures QueueOk(st', Enqueued(st', q, c))
  {
    assert c !in q;
    forall i, j | 0 <= i < j < |q| ensures WakeOf(st', q[i]) <= WakeOf(st', q[j]) {
      assert q[i] in q && q[j] in q;
    }
    EnqueuedMembers(st', q, c);
    EnqueuedNoDup(st', q, c);
    EnqueuedSorted(st', q, c);
  }

  lemma QueueFrame(st: Store, st': Store, q: seq<Id>)
    requires QueueOk(st, q) && forall d :: WakeOf(st', d) == WakeOf(st, d)
    ensures QueueOk(st', q)
  {
  }

  lemma SameWakeOf(st: Store, st': Store)
    requires SameWakeups(st, st')
    ensures forall d :: WakeOf(st', d) == WakeOf(st, d)
  {
  }

  // ----- waking -----

  function ClearWakeup(b: Body): Body {
    match b
    case RateLimit(resource, bucket, child) => RateLimit(resource, bucket.(wakeup := 0), child)
    case Leaf(waitCycles, _) => Leaf(waitCycles, 0)
    case Priority(_, _) => b
    case WeightedFair(_, _, _) => b
    case RoundRobin(_, _, _) => b
  }

  /** A class is taken off the queue: its wakeup time is cleared. */
  function Cleared(st: Store, c: Id): Store
    requires c in st
  {
    st[c := st[c].(body := ClearWakeup(st[c].body))]
  }

  /** A woken class is consistent but for its flag, and ready to be unblocked. */
  lemma ClearedReady(st: Store, rank: map<Id, nat>, c: Id)
    requires Linked(st, rank) && AllOk(st) && c in st && WakeupTime(st[c].body) != 0
    ensures var st' := Cleared(st, c);
      SameShape(st, st') && Linked(st', rank) && OkExcept(st', c) && UnblockReady(st', c) && OnlyUnblocks(st, st')
  {
    var st' := Cleared(st, c);
    assert NodeOk(st, c);
    assert Kids(st'[c].body) == Kids(st[c].body);
    ShapeKeepsLinks(st, st', rank);
    forall m | m in st' && m != c ensures NodeOk(st', m) {
      assert NodeOk(st, m);
      NodeFrame(st, st', m);
    }
  }

  lemma ClearedQueue(st: Store, c: Id, q: seq<Id>)
    requires QueueOk(st, q) && q != [] && c == q[0] && c in st
    ensures QueueOk(Cleared(st, c), q[1..])
  {
    var st' := Cleared(st, c);
    assert WakeOf(st', c) == 0 && forall d :: d != c ==> WakeOf(st', d) == WakeOf(st, d);
    assert q == [c] + q[1..];
    assert c !in q[1..];
    forall i, j | 0 <= i < j < |q[1..]| ensures WakeOf(st', q[1..][i]) <= WakeOf(st', q[1..][j]) {
      assert q[1..][i] == q[i + 1] && q[1..][j] == q[j + 1];
    }
  }

  lemma ClearedInOrder(st: Store, c: Id, now: nat)
    requires c in st && AllInOrder(st, now)
    ensures AllInOrder(Cleared(st, c), now)
  {
    assert InOrder(st[c].body, now);
  }

  /** Exactly the wakeup times before `tsc` are cleared. */
  ghost predicate WokenBefore(st: Store, st': Store, tsc: nat) {
    forall c :: WakeOf(st', c) == if WakeOf(st, c) < tsc then 0 else WakeOf(st, c)
  }

  lemma WakeOne(st: Store, rank: map<Id, nat>, q: seq<Id>)
    requires Linked(st, rank) && Climbs(st, rank) && AllOk(st) && QueueOk(st, q) && q != []
    ensures var c := q[0];
      && c in st && Climbs(Cleared(st, c), rank)
      && var st' := UnblockUp(Cleared(st, c), rank, c, WakeOf(st, c));
         && Linked(st', rank) && Climbs(st', rank) && AllOk(st') && QueueOk(st', q[1..])
         && SameShape(st, st') && OnlyUnblocks(st, st')
         && forall d :: WakeOf(st', d) == if d == c then 0 else WakeOf(st, d)
  {
    var c := q[0];
    assert c in q;
    var st1 := Cleared(st, c);
    ClearedReady(st, rank, c);
    LinkedClimbs(st1, rank);
    UnblockUpSound(st1, rank, c, WakeOf(st, c));
    var st' := UnblockUp(st1, rank, c, WakeOf(st, c));
    LinkedClimbs(st', rank);
    ClearedQueue(st, c, q);
    SameWakeOf(st1, st');
    QueueFrame(st1, st', q[1..]);
    SameShapeChain(st, st1, st');
  }

  lemma SameShapeChain(a: Store, b: Store, c: Store)
    requires SameShape(a, b) && SameShape(b, c) && OnlyUnblocks(a, b) && OnlyUnblocks(b, c)
    ensures SameShape(a, c) && OnlyUnblocks(a, c)
  {
    ShapeTransitive(a, b, c);
  }

  /** `WakeTCs`: classes leave the queue, earliest first, while their wakeup time lies before `tsc`. */
  ghost function WakeDue(st: Store, rank: map<Id, nat>, q: seq<Id>, tsc: nat): Store
    requires Linked(st, rank) && Climbs(st, rank) && AllOk(st) && QueueOk(st, q)
    decreases |q|
  {
    if q == [] || WakeOf(st, q[0]) >= tsc then st
    else
      WakeOne(st, rank, q);
      WakeDue(UnblockUp(Cleared(st, q[0]), rank, q[0], WakeOf(st, q[0])), rank, q[1..], tsc)
  }

  /**
   `WakeTCs` wakes exactly the classes whose wakeup time lies before `tsc`, blocks none, keeps the hierarchy,
   and leaves every class consistent.
   */
  lemma {:induction false} WakeDueSound(st: Store, rank: map<Id, nat>, q: seq<Id>, tsc: nat)
    requires Linked(st, rank) && Climbs(st, rank) && AllOk(st) && QueueOk(st, q)
    ensures var st' := WakeDue(st, rank, q, tsc);
      Linked(st', rank) && AllOk(st') && SameShape(st, st') && OnlyUnblocks(st, st') && WokenBefore(st, st', tsc)
    decreases |q|
  {
    if q == [] || WakeOf(st, q[0]) >= tsc {
      forall c ensures WakeOf(st, c) == if WakeOf(st, c) < tsc then 0 else WakeOf(st, c) {
        if WakeOf(st, c) != 0 {
          assert c in q;
        }
      }
    } else {
      WakeOne(st, rank, q);
      var st1 := UnblockUp(Cleared(st, q[0]), rank, q[0], WakeOf(st, q[0]));
      WakeDueSound(st1, rank, q[1..], tsc);
      SameShapeChain(st, st1, WakeDue(st1, rank, q[1..], tsc));
    }
  }

  lemma {:induction false} WakeDueInOrder(st: Store, rank: map<Id, nat>, q: seq<Id>, tsc: nat, now: nat)
    requires Linked(st, rank) && Climbs(st, rank) && AllOk(st) && QueueOk(st, q) && AllInOrder(st, now) && tsc <= now
    ensures AllInOrder(WakeDue(st, rank, q, tsc), now)
    decreases |q|
  {
    if q == [] || WakeOf(st, q[0]) >= tsc {
    } else {
      WakeOne(st, rank, q);
      ClearedInOrder(st, q[0], now);
      assert LinkOk(st, rank, q[0]);
      UnblockUpInOrder(Cleared(st, q[0]), rank, q[0], WakeOf(st, q[0]), now);
      WakeDueInOrder(UnblockUp(Cleared(st, q[0]), rank, q[0], WakeOf(st, q[0])), rank, q[1..], tsc, now);
    }
  }

  // ----- leaf backoff -----

  /** After a run that found nothing to do. */
  function Longer(wait: nat): nat {
    if MAX_WAIT < 2 * wait then MAX_WAIT else 2 * wait
  }

  /** After a productive run. */
  function Shorter(wait: nat): nat {
    (wait + 1) / 2
  }

  function Waits(wait: nat, idle: seq<bool>): nat
    decreases |idle|
  {
    if idle == [] then wait else Waits(if idle[0] then Longer(wait) else Shorter(wait), idle[1..])
  }

  /** From the initial value, a leaf always waits at least one cycle and at most the maximum. */
  lemma {:induction false} WaitStaysBounded(wait: nat, idle: seq<bool>)
    requires 1 <= wait <= MAX_WAIT
    ensures 1 <= Waits(wait, idle) <= MAX_WAIT
    decreases |idle|
  {
    if idle != [] {
      WaitStaysBounded(if idle[0] then Longer(wait) else Shorter(wait), idle[1..]);
    }
  }

  /** A productive run takes back an idle one exactly when doubling stayed within the maximum. */
  lemma ShorterUndoesLonger(wait: nat)
    requires 1 <= wait <= MAX_WAIT
    ensures Shorter(Longer(wait)) == wait <==> 2 * wait <= MAX_WAIT
  {
  }

  lemma {:induction false} AllIdle(wait: nat, n: nat)
    requires 1 <= wait && wait <= MAX_WAIT
    ensures Waits(wait, seq(n, _ => true)) == if Doubled(wait, n) < MAX_WAIT then Doubled(wait, n) else MAX_WAIT
    decreases n
  {
    var idle := seq(n, _ => true);
    if n > 0 {
      assert idle[1..] == seq(n - 1, _ => true);
      AllIdle(Longer(wait), n - 1);
      DoubledGrows(Longer(wait), n - 1);
      DoubledGrows(2 * wait, n - 1);
    }
  }

  function Doubled(wait: nat, n: nat): nat
    decreases n
  {
    if n == 0 then wait else Doubled(2 * wait, n - 1)
  }

  lemma {:induction false} DoubledGrows(wait: nat, n: nat)
    ensures Doubled(wait, n) >= wait
    decreases n
  {
    if n > 0 {
      DoubledGrows(2 * wait, n - 1);
    }
  }

  // ----- running a leaf -----

  /** What a task reports; the task itself is not part of the model. */
  datatype TaskResult = TaskResult(packets: nat, bits: nat, block: bool)

  /** The leaf found nothing to do: it waits. */
  function BackedOff(st: Store, leaf: Id, now: nat): Store
    requires leaf in st && st[leaf].body.Leaf?
  {
    var wait := Longer(st[leaf].body.waitCycles);
    st[leaf := Node(st[leaf].parent, true, Leaf(wait, now + wait))]
  }

  function Eased(st: Store, leaf: Id): Store
    requires leaf in st && st[leaf].body.Leaf?
  {
    st[leaf := st[leaf].(body := Leaf(Shorter(st[leaf].body.waitCycles), st[leaf].body.wakeup))]
  }

  /**
   The leaf after a run that found nothing to do: its wait has doubled, up to the maximum, and it is blocked until that
   many cycles from now.
   */
  lemma IdleLeafWaits(st: Store, leaf: Id, now: nat)
    requires leaf in st && st[leaf].body.Leaf?
    ensures var wait := st[leaf].body.waitCycles;
      var x := BackedOff(st, leaf, now)[leaf];
      && x.parent == st[leaf].parent && x.blocked && x.body.Leaf?
      && x.body.waitCycles == Waits(wait, [true]) == (if 2 * wait <= 1048576 then 2 * wait else 1048576)
      && x.body.wakeup == now + x.body.waitCycles
    ensures forall n :: n in st && n != leaf ==> BackedOff(st, leaf, now)[n] == st[n]
  {
    assert [true][1..] == [];
  }

  /** The leaf after a productive run: half the wait, rounded up, and otherwise as it was. */
  lemma BusyLeafWaits(st: Store, leaf: Id)
    requires leaf in st && st[leaf].body.Leaf?
    ensures var wait := st[leaf].body.waitCycles;
      var x := Eased(st, leaf)[leaf];
      && x.parent == st[leaf].parent && x.blocked == st[leaf].blocked && x.body.Leaf?
      && x.body.waitCycles == Waits(wait, [false]) && wait <= 2 * x.body.waitCycles <= wait + 1
      && x.body.wakeup == st[leaf].body.wakeup
    ensures forall n :: n in st && n != leaf ==> Eased(st, leaf)[n] == st[n]
  {
    assert [false][1..] == [];
  }

  /** Waits accumulate run by run. */
  lemma {:induction false} WaitsChain(wait: nat, idle: seq<bool>, more: seq<bool>)
    ensures Waits(wait, idle + more) == Waits(Waits(wait, idle), more)
    decreases |idle|
  {
    if idle == [] {
      assert idle + more == more;
    } else {
      assert (idle + more)[1..] == idle[1..] + more;
      WaitsChain(if idle[0] then Longer(wait) else Shorter(wait), idle[1..], more);
    }
  }

  lemma LeafShape(st: Store, rank: map<Id, nat>, leaf: Id, x: Node)
    requires Linked(st, rank) && Climbs(st, rank) && leaf in st && st[leaf].body.Leaf? && PathReady(st, rank, leaf)
    requires x.parent == st[leaf].parent && x.body.Leaf?
    ensures var st' := st[leaf := x];
      SameShape(st, st') && Linked(st', rank) && Climbs(st', rank) && PathReady(st', rank, leaf)
  {
    var st' := st[leaf := x];
    ShapeKeepsLinks(st, st', rank);
    ClimbsFrame(st, rank, leaf, x);
    PathFrame(st, st', rank, leaf);
  }

  /** An update of the leaf that was run leaves the rest consistent, up to the leaf's flag. */
  lemma LeafUpdate(st: Store, leaf: Id, x: Node)
    requires AllOk(st) && IsRunnable(st, leaf) && st[leaf].body.Leaf?
    requires x.body.Leaf? && (x.blocked <==> x.body.wakeup != 0)
    ensures OkIfUnblocked(st[leaf := x], leaf)
  {
    var st' := st[leaf := x];
    var lit := st'[leaf := x.(blocked := false)];
    assert forall c :: IsBlocked(lit, c) == IsBlocked(st, c) && IsRunnable(lit, c) == IsRunnable(st, c);
    forall m | m in st' && m != leaf ensures NodeOk(lit, m) {
      assert NodeOk(st, m);
      NodeFrame(st, lit, m);
    }
  }

  lemma LeafInOrder(st: Store, leaf: Id, x: Node, now: nat)
    requires AllInOrder(st, now) && leaf in st && x.body.Leaf? && 1 <= x.body.waitCycles <= MAX_WAIT
    ensures AllInOrder(st[leaf := x], now)
  {
  }

  lemma Later(st: Store, now: nat, later: nat)
    requires AllInOrder(st, now) && now <= later
    ensures AllInOrder(st, later)
  {
    forall n | n in st ensures InOrder(st[n].body, later) {
      assert InOrder(st[n].body, now);
    }
  }
}

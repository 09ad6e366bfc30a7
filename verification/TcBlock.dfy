/** `BlockTowardsRoot` of every kind of class (bess/core/traffic_class.cc, bess/core/traffic_class.h). */
module TcBlock {
  import opened Wrappers
  import opened Stride
  import opened TokenBucket
  import opened TrafficClass

  /** The position of the first blocked child in the queue, if there is one. */
  function FirstBlocked(st: Store, q: seq<Entry>): (k: nat)
    ensures k <= |q|
    ensures forall i :: 0 <= i < k ==> !IsBlocked(st, q[i].c)
    ensures k < |q| ==> IsBlocked(st, q[k].c)
  {
    if q == [] || IsBlocked(st, q[0].c) then 0 else 1 + FirstBlocked(st, q[1..])
  }

  /** Where the round robin stands after child `i` of the `len` others left the runnable list. */
  function AfterErase(next: nat, i: nat, len: nat): nat {
    var back := if next > i then next - 1 else next;
    if back >= len then 0 else back
  }

  datatype Ring = Ring(next: nat, ready: seq<Id>, waiting: seq<Id>)

  /** The child at position `i` moves to the blocked list. */
  function BlockOne(r: Ring, i: nat): Ring
    requires i < |r.ready|
  {
    Ring(AfterErase(r.next, i, |r.ready| - 1), r.ready[..i] + r.ready[i + 1..], r.waiting + [r.ready[i]])
  }

  /** Every blocked child from position `i` on moves to the blocked list. */
  function BlockRing(st: Store, r: Ring, i: nat): Ring
    requires i <= |r.ready|
    decreases |r.ready| - i
  {
    if i == |r.ready| then r
    else if IsBlocked(st, r.ready[i]) then
      BlockRing(st, BlockOne(r, i), i)
    else BlockRing(st, r, i + 1)
  }

  function BlockBody(st: Store, b: Body): Body {
    match b
    case Priority(children, first) =>
      Priority(children, if first < |children| then FirstRunnable(st, children, first) else first)
    case WeightedFair(resource, runnable, sleeping) =>
      var k := FirstBlocked(st, runnable);
      if k == |runnable| then b
      else WeightedFair(resource, runnable[..k] + runnable[k + 1..], sleeping + [runnable[k]])
    case RoundRobin(next, ready, waiting) =>
      var r := BlockRing(st, Ring(next, ready, waiting), 0);
      RoundRobin(r.next, r.ready, r.waiting)
    case RateLimit(_, _, _) => b
    case Leaf(_, _) => b
  }

  /** `nowblocked` as computed by `BlockTowardsRoot` from the updated lists. */
  predicate BlockFlag(st: Store, b: Body) {
    match b
    case Priority(children, first) => first == |children|
    case WeightedFair(_, runnable, _) => runnable == []
    case RoundRobin(_, ready, _) => ready == []
    case RateLimit(_, _, child) => child.None? || IsBlocked(st, child.value)
    case Leaf(_, _) => false
  }

  function BlockNode(st: Store, n: Id): Node
    requires n in st
  {
    var b := BlockBody(st, st[n].body);
    Node(st[n].parent, BlockFlag(st, b), b)
  }

  ghost predicate AtMostOneBlocked(st: Store, q: seq<Entry>) {
    forall i, j :: 0 <= i < |q| && 0 <= j < |q| && IsBlocked(st, q[i].c) && IsBlocked(st, q[j].c) ==> i == j
  }

  /** The state in which `BlockTowardsRoot` is called on class `n`. */
  ghost predicate BlockReady(st: Store, n: Id)
    requires n in st
  {
    match st[n].body
    case Priority(children, first) =>
      first <= |children| && PrefixBlocked(st, children, first) && (st[n].blocked ==> first == |children|)
    case WeightedFair(_, runnable, sleeping) =>
      AtMostOneBlocked(st, runnable) && EntriesBlocked(st, sleeping) && (st[n].blocked ==> runnable == [])
    case RoundRobin(next, ready, waiting) =>
      && AllBlocked(st, waiting) && (st[n].blocked ==> ready == [])
      && (if ready == [] then next == 0 else next < |ready|)
    case RateLimit(_, _, child) => child.None? || IsBlocked(st, child.value)
    case Leaf(_, wakeup) => wakeup == 0 && !st[n].blocked
  }

  ghost predicate BlockedWell(st: Store, n: Id)
    requires n in st
  {
    var x := BlockNode(st, n);
    KeepsShape(st, n, x) && NodeOk(st[n := x], n) && (st[n].blocked ==> x.blocked)
  }

  lemma BlockPriority(st: Store, n: Id)
    requires n in st && st[n].body.Priority? && BlockReady(st, n)
    requires forall c :: c in Kids(st[n].body) ==> c in st && c != n
    ensures BlockedWell(st, n)
  {
    var children := st[n].body.children;
    forall i | 0 <= i < |children| ensures children[i].c in st && children[i].c != n {
      assert Ids(children)[i] in Kids(st[n].body);
    }
  }

  lemma MoveBag(q: seq<Entry>, sleeping: seq<Entry>, k: nat)
    requires k < |q|
    ensures Bag(q[..k] + q[k + 1..]) + Bag(sleeping + [q[k]]) == Bag(q) + Bag(sleeping)
  {
    EraseBag(q, k);
    BagSnoc(sleeping, q[k]);
  }

  lemma RestRunnable(st: Store, q: seq<Entry>, k: nat)
    requires InStore(st, q) && AtMostOneBlocked(st, q) && k < |q| && IsBlocked(st, q[k].c)
    ensures EntriesRunnable(st, q[..k] + q[k + 1..])
  {
    var rest := q[..k] + q[k + 1..];
    forall i | 0 <= i < |rest| ensures IsRunnable(st, rest[i].c) {
      var j := if i < k then i else i + 1;
      assert rest[i] == q[j];
    }
  }

  /** The lists of a weighted-fair class after one blocked child, if there is one, has left the queue. */
  lemma DropSound(st: Store, runnable: seq<Entry>, sleeping: seq<Entry>)
    requires InStore(st, runnable) && AtMostOneBlocked(st, runnable) && EntriesBlocked(st, sleeping)
    ensures var k := FirstBlocked(st, runnable);
      if k == |runnable| then EntriesRunnable(st, runnable)
      else
        && EntriesRunnable(st, runnable[..k] + runnable[k + 1..]) && EntriesBlocked(st, sleeping + [runnable[k]])
        && Bag(runnable[..k] + runnable[k + 1..]) + Bag(sleeping + [runnable[k]]) == Bag(runnable) + Bag(sleeping)
  {
    var k := FirstBlocked(st, runnable);
    if k < |runnable| {
      MoveBag(runnable, sleeping, k);
      RestRunnable(st, runnable, k);
    }
  }

  lemma BlockWeightedFair(st: Store, n: Id)
    requires n in st && st[n].body.WeightedFair? && BlockReady(st, n)
    requires forall c :: c in Kids(st[n].body) ==> c in st && c != n
    ensures BlockedWell(st, n)
  {
    var runnable, sleeping := st[n].body.runnable, st[n].body.sleeping;
    forall i | 0 <= i < |runnable| ensures runnable[i].c in st {
      BagIndex(runnable, i);
      assert runnable[i].c in Kids(st[n].body);
    }
    DropSound(st, runnable, sleeping);
    var k := FirstBlocked(st, runnable);
    if k == |runnable| {
      WfUpdate(st, n, BlockNode(st, n), runnable, sleeping);
    } else {
      WfUpdate(st, n, BlockNode(st, n), runnable[..k] + runnable[k + 1..], sleeping + [runnable[k]]);
    }
  }

  lemma BlockOneSound(st: Store, r: Ring, i: nat)
    requires i < |r.ready| && AllBlocked(st, r.waiting) && IsBlocked(st, r.ready[i]) && r.next < |r.ready|
    requires forall j :: 0 <= j < |r.ready| ==> r.ready[j] in st
    requires forall j :: 0 <= j < i ==> IsRunnable(st, r.ready[j])
    ensures var s := BlockOne(r, i);
      && AllBlocked(st, s.waiting) && i <= |s.ready| == |r.ready| - 1
      && (forall j :: 0 <= j < |s.ready| ==> s.ready[j] in st)
      && (forall j :: 0 <= j < i ==> IsRunnable(st, s.ready[j]))
      && (if s.ready == [] then s.next == 0 else s.next < |s.ready|)
      && multiset(s.ready) + multiset(s.waiting) == multiset(r.ready) + multiset(r.waiting)
  {
    var s := BlockOne(r, i);
    EraseMultiset(r.ready, i);
    assert multiset(s.waiting) == multiset(r.waiting) + multiset{r.ready[i]};
    forall j | 0 <= j < |s.ready| ensures s.ready[j] == r.ready[if j < i then j else j + 1] {
    }
  }

  lemma {:induction false} BlockRingSound(st: Store, r: Ring, i: nat)
    requires i <= |r.ready| && AllBlocked(st, r.waiting)
    requires forall j :: 0 <= j < |r.ready| ==> r.ready[j] in st
    requires forall j :: 0 <= j < i ==> IsRunnable(st, r.ready[j])
    requires if r.ready == [] then r.next == 0 else r.next < |r.ready|
    ensures var s := BlockRing(st, r, i);
      && AllRunnable(st, s.ready) && AllBlocked(st, s.waiting)
      && (if s.ready == [] then s.next == 0 else s.next < |s.ready|)
      && multiset(s.ready) + multiset(s.waiting) == multiset(r.ready) + multiset(r.waiting)
      && (r.ready == [] ==> s.ready == [])
    decreases |r.ready| - i
  {
    if i < |r.ready| {
      if IsBlocked(st, r.ready[i]) {
        var r' := BlockOne(r, i);
        BlockOneSound(st, r, i);
        BlockRingSound(st, r', i);
      } else {
        BlockRingSound(st, r, i + 1);
      }
    }
  }

  lemma BlockRoundRobin(st: Store, n: Id)
    requires n in st && st[n].body.RoundRobin? && BlockReady(st, n)
    requires forall c :: c in Kids(st[n].body) ==> c in st && c != n
    ensures BlockedWell(st, n)
  {
    var x, b := BlockNode(st, n), st[n].body;
    forall i | 0 <= i < |b.ready| ensures b.ready[i] in st {
      assert b.ready[i] in multiset(b.ready);
    }
    BlockRingSound(st, Ring(b.nextChild, b.ready, b.waiting), 0);
    RrUpdate(st, n, x, x.body.ready, x.body.waiting);
  }

  lemma BlockNodeSound(st: Store, rank: map<Id, nat>, n: Id)
    requires Linked(st, rank) && n in st && BlockReady(st, n)
    ensures BlockedWell(st, n)
  {
    KidsInStore(st, rank, n);
    match st[n].body
    case Priority(_, _) => BlockPriority(st, n);
    case WeightedFair(_, _, _) => BlockWeightedFair(st, n);
    case RoundRobin(_, _, _) => BlockRoundRobin(st, n);
    case RateLimit(_, _, _) =>
    case Leaf(_, _) =>
  }

  // ----- towards the root -----

  /** `BlockTowardsRoot` on class `n`: its parent is told if it became blocked. */
  ghost function BlockUp(st: Store, rank: map<Id, nat>, n: Id): Store
    requires Climbs(st, rank) && n in st
    decreases Above(rank, n)
  {
    var x := BlockNode(st, n);
    var st' := st[n := x];
    if x.parent.None? || !x.blocked || st[n].blocked then st'
    else
      AboveShrinks(rank, n, x.parent.value);
      ClimbsFrame(st, rank, n, x);
      BlockUp(st', rank, x.parent.value)
  }

  lemma {:induction false} BagUnique(q: seq<Entry>, i: nat, j: nat)
    requires i < j < |q| && q[i].c == q[j].c
    ensures Bag(q)[q[i].c] >= 2
    decreases q
  {
    if i == 0 {
      BagIndex(q[1..], j - 1);
    } else {
      BagUnique(q[1..], i - 1, j - 1);
    }
  }

  lemma OneTurnedBlocked(st: Store, st': Store, q: seq<Entry>, c: Id)
    requires EntriesRunnable(st, q) && Bag(q)[c] <= 1
    requires forall d :: d != c ==> IsBlocked(st', d) == IsBlocked(st, d)
    ensures AtMostOneBlocked(st', q)
  {
    forall i, j | 0 <= i < |q| && 0 <= j < |q| && IsBlocked(st', q[i].c) && IsBlocked(st', q[j].c) ensures i == j {
      if i < j {
        BagUnique(q, i, j);
      } else if j < i {
        BagUnique(q, j, i);
      }
    }
  }

  lemma WfReadyToBlock(st: Store, n: Id, x: Node, p: Id)
    requires n in st && p in st && p != n && st[p].body.WeightedFair? && NodeOk(st, p)
    requires Kids(st[p].body)[n] == 1 && !st[n].blocked && x.blocked
    ensures BlockReady(st[n := x], p)
  {
    var b, st' := st[p].body, st[n := x];
    assert (Bag(b.runnable) + Bag(b.sleeping))[n] == 1;
    OneTurnedBlocked(st, st', b.runnable, n);
    forall i | 0 <= i < |b.sleeping| ensures IsBlocked(st', b.sleeping[i].c) {
      assert IsBlocked(st, b.sleeping[i].c);
    }
    if st[p].blocked {
      assert b.runnable == [];
    }
  }

  /** The parent of a class that became blocked is ready to be told. */
  lemma ParentReadyToBlock(st: Store, rank: map<Id, nat>, n: Id, x: Node)
    requires Linked(st, rank) && n in st && OkExcept(st, n)
    requires x.parent == st[n].parent && x.parent.Some? && !st[n].blocked && x.blocked
    ensures var p := x.parent.value; p in st && p in rank && n in rank && rank[n] < rank[p] && BlockReady(st[n := x], p)
  {
    var p, st' := x.parent.value, st[n := x];
    assert LinkOk(st, rank, n) && LinkOk(st, rank, p);
    assert NodeOk(st, p);
    match st[p].body
    case Priority(children, first) =>
    case WeightedFair(_, _, _) => WfReadyToBlock(st, n, x, p);
    case RoundRobin(_, _, _) =>
    case RateLimit(_, _, child) =>
    case Leaf(_, _) => assert false;
  }

  lemma BlockChains(a: Store, b: Store, c: Store)
    requires SameShape(a, b) && SameWakeups(a, b) && OnlyBlocks(a, b)
    requires SameShape(b, c) && SameWakeups(b, c) && OnlyBlocks(b, c)
    ensures SameShape(a, c) && SameWakeups(a, c) && OnlyBlocks(a, c)
  {
    ShapeTransitive(a, b, c);
  }

  /**
   `BlockTowardsRoot` restores consistency of the whole tree: called where only class `n` may have
   missed that one of its children is blocked or gone, it leaves every class consistent, unblocks no
   class, and changes neither the hierarchy nor a wakeup time.
   */
  lemma {:induction false} BlockUpSound(st: Store, rank: map<Id, nat>, n: Id)
    requires Linked(st, rank) && Climbs(st, rank) && n in st && OkExcept(st, n) && BlockReady(st, n)
    ensures var st' := BlockUp(st, rank, n);
      SameShape(st, st') && SameWakeups(st, st') && Linked(st', rank) && AllOk(st') && OnlyBlocks(st, st')
    decreases Above(rank, n)
  {
    var x := BlockNode(st, n);
    var st' := st[n := x];
    BlockNodeSound(st, rank, n);
    UpdateDisturbsParentOnly(st, rank, n, x);
    UpdateShape(st, rank, n, x);
    UpdateOnlyBlocks(st, n, x);
    if x.parent.None? || !x.blocked || st[n].blocked {
      assert BlockUp(st, rank, n) == st';
    } else {
      var p := x.parent.value;
      ClimbsFrame(st, rank, n, x);
      ParentReadyToBlock(st, rank, n, x);
      AboveShrinks(rank, n, p);
      BlockUpSound(st', rank, p);
      assert BlockUp(st, rank, n) == BlockUp(st', rank, p);
      BlockChains(st, st', BlockUp(st', rank, p));
    }
  }

  lemma EraseSorted(q: seq<Entry>, k: nat)
    requires Sorted(q) && k < |q|
    ensures Sorted(q[..k] + q[k + 1..])
  {
    var r := q[..k] + q[k + 1..];
    assert forall j :: 0 <= j < |r| ==> r[j] == q[if j < k then j else j + 1];
  }

  lemma BlockInOrder(st: Store, n: Id, now: nat)
    requires n in st && AllInOrder(st, now)
    ensures AllInOrder(st[n := BlockNode(st, n)], now)
  {
    assert InOrder(st[n].body, now);
    if st[n].body.WeightedFair? {
      var q := st[n].body.runnable;
      var k := FirstBlocked(st, q);
      if k < |q| {
        EraseSorted(q, k);
      }
    }
  }

  /** Blocking keeps the lists in order. */
  lemma {:induction false} BlockUpInOrder(st: Store, rank: map<Id, nat>, n: Id, now: nat)
    requires Climbs(st, rank) && n in st && n in rank && AllInOrder(st, now)
    ensures AllInOrder(BlockUp(st, rank, n), now)
    decreases Above(rank, n)
  {
    var x := BlockNode(st, n);
    BlockInOrder(st, n, now);
    if x.parent.Some? && x.blocked && !st[n].blocked {
      AboveShrinks(rank, n, x.parent.value);
      ClimbsFrame(st, rank, n, x);
      BlockUpInOrder(st[n := x], rank, x.parent.value, now);
    }
  }
}

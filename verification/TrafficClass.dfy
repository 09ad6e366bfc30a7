/**
 The hierarchy of traffic classes (bess/core/traffic_class.h, bess/core/traffic_class.cc): priority,
 weighted-fair, round-robin, rate-limit and leaf classes, and what it means for their flags, lists and
 wakeup times to agree. Class objects live in a store and refer to each other by id, which stands for
 the pointer.
 */
module TrafficClass {
  import opened Wrappers
  import opened Stride
  import opened TokenBucket

  type Id = nat

  datatype Resource = Count | Cycle | Packet | Bit

  datatype Usage = Usage(count: nat, cycles: nat, packets: nat, bits: nat) {
    function Of(r: Resource): nat {
      match r
      case Count => count
      case Cycle => cycles
      case Packet => packets
      case Bit => bits
    }
  }

  datatype Prio = Prio(priority: nat, c: Id)

  datatype Body =
    | Priority(children: seq<Prio>, firstRunnable: nat)
    | WeightedFair(resource: Resource, runnable: seq<Entry>, sleeping: seq<Entry>)
    | RoundRobin(nextChild: nat, ready: seq<Id>, waiting: seq<Id>)
    | RateLimit(limited: Resource, bucket: Bucket, child: Option<Id>)
    | Leaf(waitCycles: nat, wakeup: nat)

  datatype Node = Node(parent: Option<Id>, blocked: bool, body: Body)

  type Store = map<Id, Node>

  /** `kMaxWait` and `kInitialWaitCycles`. */
  const MAX_WAIT: nat := 1048576
  const INITIAL_WAIT: nat := 16384

  predicate IsBlocked(st: Store, c: Id) {
    c in st && st[c].blocked
  }

  predicate IsRunnable(st: Store, c: Id) {
    c in st && !st[c].blocked
  }

  /** `wakeup_time_`. */
  function WakeupTime(b: Body): nat {
    match b
    case RateLimit(_, bucket, _) => bucket.wakeup
    case Leaf(_, wakeup) => wakeup
    case _ => 0
  }

  datatype Policy = PriorityPolicy | WeightedFairPolicy | RoundRobinPolicy | RateLimitPolicy | LeafPolicy

  /** `policy_`. */
  function PolicyOf(b: Body): Policy {
    match b
    case Priority(_, _) => PriorityPolicy
    case WeightedFair(_, _, _) => WeightedFairPolicy
    case RoundRobin(_, _, _) => RoundRobinPolicy
    case RateLimit(_, _, _) => RateLimitPolicy
    case Leaf(_, _) => LeafPolicy
  }

  function Ids(ps: seq<Prio>): (ids: seq<Id>)
    ensures |ids| == |ps|
    ensures forall i :: 0 <= i < |ps| ==> ids[i] == ps[i].c
  {
    seq(|ps|, i requires 0 <= i < |ps| => ps[i].c)
  }

  /** The children of a class, with multiplicity. */
  function Kids(b: Body): multiset<Id> {
    match b
    case Priority(children, _) => multiset(Ids(children))
    case WeightedFair(_, runnable, sleeping) => Bag(runnable) + Bag(sleeping)
    case RoundRobin(_, ready, waiting) => multiset(ready) + multiset(waiting)
    case RateLimit(_, _, child) => if child.Some? then multiset{child.value} else multiset{}
    case Leaf(_, _) => multiset{}
  }

  // ----- the links between classes -----

  /** Children and parents agree, each child is listed once, and ranks grow towards the root. */
  ghost predicate LinkOk(st: Store, rank: map<Id, nat>, n: Id)
    requires n in st
  {
    && n in rank
    && (forall c :: c in Kids(st[n].body) ==> Kids(st[n].body)[c] == 1 && c in st && st[c].parent == Some(n))
    && (st[n].parent.Some? ==>
          var p := st[n].parent.value;
          p in st && p in rank && rank[n] < rank[p] && n in Kids(st[p].body))
  }

  ghost predicate Linked(st: Store, rank: map<Id, nat>) {
    forall n {:trigger LinkOk(st, rank, n)} :: n in st ==> LinkOk(st, rank, n)
  }

  // ----- flags, lists and wakeup times -----

  ghost predicate AllBlocked(st: Store, cs: seq<Id>) {
    forall i :: 0 <= i < |cs| ==> IsBlocked(st, cs[i])
  }

  ghost predicate PrefixBlocked(st: Store, children: seq<Prio>, first: nat)
    requires first <= |children|
  {
    forall i :: 0 <= i < first ==> IsBlocked(st, children[i].c)
  }

  ghost predicate AllRunnable(st: Store, cs: seq<Id>) {
    forall i :: 0 <= i < |cs| ==> IsRunnable(st, cs[i])
  }

  ghost predicate EntriesRunnable(st: Store, q: seq<Entry>) {
    forall i :: 0 <= i < |q| ==> IsRunnable(st, q[i].c)
  }

  ghost predicate EntriesBlocked(st: Store, q: seq<Entry>) {
    forall i :: 0 <= i < |q| ==> IsBlocked(st, q[i].c)
  }

  ghost predicate InStore(st: Store, q: seq<Entry>) {
    forall i :: 0 <= i < |q| ==> q[i].c in st
  }

  /** What holds a rate limiter back: it is throttled, or its child is missing or blocked. */
  predicate HeldBack(st: Store, bucket: Bucket, child: Option<Id>) {
    bucket.wakeup != 0 || child.None? || IsBlocked(st, child.value)
  }

  /** The lists and the flag of class `n` agree with the flags of its children. */
  ghost predicate NodeOk(st: Store, n: Id)
    requires n in st
  {
    match st[n].body
    case Priority(children, first) =>
      && first <= |children|
      && PrefixBlocked(st, children, first)
      && (first < |children| ==> IsRunnable(st, children[first].c))
      && (st[n].blocked <==> first == |children|)
    case WeightedFair(_, runnable, sleeping) =>
      && EntriesRunnable(st, runnable) && EntriesBlocked(st, sleeping)
      && (st[n].blocked <==> runnable == [])
    case RoundRobin(next, ready, waiting) =>
      && AllRunnable(st, ready) && AllBlocked(st, waiting)
      && (if ready == [] then next == 0 else next < |ready|)
      && (st[n].blocked <==> ready == [])
    case RateLimit(_, bucket, child) =>
      && (HeldBack(st, bucket, child) ==> st[n].blocked)
      && (bucket.limit > 0 && st[n].blocked ==> HeldBack(st, bucket, child))
    case Leaf(_, wakeup) => st[n].blocked <==> wakeup != 0
  }

  ghost predicate AllOk(st: Store) {
    forall n {:trigger NodeOk(st, n)} :: n in st ==> NodeOk(st, n)
  }

  ghost predicate OkExcept(st: Store, n: Id) {
    forall x {:trigger NodeOk(st, x)} :: x in st && x != n ==> NodeOk(st, x)
  }

  // ----- what consistency means -----

  /** A priority, weighted-fair or round-robin class is blocked exactly when it has no unblocked child. */
  lemma BlockedIffNoRunnableChild(st: Store, rank: map<Id, nat>, n: Id)
    requires Linked(st, rank) && n in st && NodeOk(st, n)
    requires st[n].body.Priority? || st[n].body.WeightedFair? || st[n].body.RoundRobin?
    ensures st[n].blocked <==> forall c :: c in Kids(st[n].body) ==> IsBlocked(st, c)
  {
    assert LinkOk(st, rank, n);
    match st[n].body
    case Priority(children, first) =>
      if first < |children| {
        assert Ids(children)[first] in Kids(st[n].body);
      }
    case WeightedFair(_, runnable, sleeping) =>
      if runnable != [] {
        BagIndex(runnable, 0);
      } else {
        forall c | c in Kids(st[n].body) ensures IsBlocked(st, c) {
          var i := BagFind(sleeping, c);
        }
      }
    case RoundRobin(next, ready, waiting) =>
      if ready != [] {
        assert ready[0] in Kids(st[n].body);
      }
  }

  lemma KidsBelow(st: Store, rank: map<Id, nat>, n: Id)
    requires Linked(st, rank) && n in st
    ensures n in rank
    ensures forall c :: c in Kids(st[n].body) ==> c in st && c in rank && rank[c] < rank[n]
  {
    assert LinkOk(st, rank, n);
    forall c | c in Kids(st[n].body) ensures c in st && c in rank && rank[c] < rank[n] {
      assert LinkOk(st, rank, c);
    }
  }

  /**
   Some leaf below `n` could run now: no wakeup time holds back the leaf itself or a limiter on the way to it.
   This does not look at a flag, a list or a position.
   */
  ghost predicate CanRun(st: Store, rank: map<Id, nat>, n: Id)
    requires Linked(st, rank) && n in st && n in rank
    decreases rank[n]
  {
    KidsBelow(st, rank, n);
    if st[n].body.Leaf? then st[n].body.wakeup == 0
    else WakeupTime(st[n].body) == 0 && exists c :: c in Kids(st[n].body) && CanRun(st, rank, c)
  }

  ghost predicate PositiveLimits(st: Store) {
    forall n :: n in st && st[n].body.RateLimit? ==> st[n].body.bucket.limit > 0
  }

  /** In a consistent tree the flags, maintained step by step, tell exactly which classes have something to run. */
  lemma {:induction false} UnblockedIffCanRun(st: Store, rank: map<Id, nat>, n: Id)
    requires Linked(st, rank) && AllOk(st) && PositiveLimits(st) && n in st && n in rank
    ensures IsRunnable(st, n) <==> CanRun(st, rank, n)
    decreases rank[n]
  {
    var b := st[n].body;
    KidsBelow(st, rank, n);
    assert NodeOk(st, n);
    forall c | c in Kids(b) ensures IsRunnable(st, c) <==> CanRun(st, rank, c) {
      UnblockedIffCanRun(st, rank, c);
    }
    if b.RateLimit? {
      assert b.child.Some? ==> b.child.value in Kids(b);
    } else if !b.Leaf? {
      BlockedIffNoRunnableChild(st, rank, n);
    }
  }

  /** `PickNextChild`. */
  function Pick(b: Body): Option<Id> {
    match b
    case Priority(children, first) => if first < |children| then Some(children[first].c) else None
    case WeightedFair(_, runnable, _) => if runnable != [] then Some(runnable[0].c) else None
    case RoundRobin(next, ready, _) => if next < |ready| then Some(ready[next]) else None
    case RateLimit(_, _, child) => child
    case Leaf(_, _) => None
  }

  /** An unblocked inner class always picks one of its children, and that one is unblocked. */
  lemma PickIsRunnable(st: Store, rank: map<Id, nat>, n: Id)
    requires Linked(st, rank) && IsRunnable(st, n) && NodeOk(st, n) && !st[n].body.Leaf?
    ensures Pick(st[n].body).Some?
    ensures var c := Pick(st[n].body).value;
      IsRunnable(st, c) && c in Kids(st[n].body) && c in rank && n in rank && rank[c] < rank[n]
  {
    assert LinkOk(st, rank, n);
    match st[n].body {
      case Priority(children, first) => assert Ids(children)[first] in Kids(st[n].body);
      case WeightedFair(_, runnable, _) =>
        BagIndex(runnable, 0);
      case RoundRobin(next, ready, _) => assert ready[next] in Kids(st[n].body);
      case RateLimit(_, _, child) =>
    }
    assert LinkOk(st, rank, Pick(st[n].body).value);
  }

  // ----- stores that differ in flags and lists only -----

  ghost predicate SameLinks(x: Node, y: Node) {
    y.parent == x.parent && Kids(y.body) == Kids(x.body) && PolicyOf(y.body) == PolicyOf(x.body)
  }

  /** Both stores hold the same classes in the same hierarchy. */
  ghost predicate SameShape(st: Store, st': Store) {
    st'.Keys == st.Keys && forall n {:trigger SameLinks(st[n], st'[n])} :: n in st ==> SameLinks(st[n], st'[n])
  }

  ghost predicate SameWakeups(st: Store, st': Store) {
    st'.Keys == st.Keys && forall n :: n in st ==> WakeupTime(st'[n].body) == WakeupTime(st[n].body)
  }

  ghost predicate PrioSorted(children: seq<Prio>) {
    forall i, j :: 0 <= i < j < |children| ==> children[i].priority < children[j].priority
  }

  /**
   Children are kept in the order in which they are picked, no tokens are counted beyond `now`, and a leaf
   waits at least one cycle and at most the maximum.
   */
  ghost predicate InOrder(b: Body, now: nat) {
    match b
    case Priority(children, _) => PrioSorted(children)
    case WeightedFair(_, runnable, _) => Sorted(runnable)
    case RoundRobin(_, _, _) => true
    case RateLimit(_, bucket, _) => bucket.lastTsc <= now
    case Leaf(waitCycles, _) => 1 <= waitCycles <= MAX_WAIT
  }

  ghost predicate AllInOrder(st: Store, now: nat) {
    forall n {:trigger InOrder(st[n].body, now)} :: n in st ==> InOrder(st[n].body, now)
  }

  /** An unblocked class picks the unblocked child of the smallest priority number or of the least pass. */
  lemma PickIsFirst(st: Store, n: Id, now: nat)
    requires IsRunnable(st, n) && NodeOk(st, n) && InOrder(st[n].body, now)
    ensures st[n].body.Priority? ==>
      var b := st[n].body;
      exists k :: 0 <= k < |b.children| && Pick(b) == Some(b.children[k].c) &&
        forall i :: 0 <= i < |b.children| && IsRunnable(st, b.children[i].c) ==>
          b.children[k].priority <= b.children[i].priority
    ensures st[n].body.WeightedFair? ==>
      var b := st[n].body;
      b.runnable != [] && Pick(b) == Some(b.runnable[0].c) &&
      forall i :: 0 <= i < |b.runnable| ==> b.runnable[0].pass <= b.runnable[i].pass
  {
    var b := st[n].body;
    if b.Priority? {
      var k := b.firstRunnable;
      forall i | 0 <= i < |b.children| && IsRunnable(st, b.children[i].c)
        ensures b.children[k].priority <= b.children[i].priority
      {
        assert !(i < k);
      }
    }
  }

  /** No class becomes blocked. */
  ghost predicate OnlyUnblocks(st: Store, st': Store) {
    forall c :: (IsBlocked(st', c) ==> IsBlocked(st, c)) && (IsRunnable(st, c) ==> IsRunnable(st', c))
  }

  /** No class becomes unblocked. */
  ghost predicate OnlyBlocks(st: Store, st': Store) {
    forall c :: (IsBlocked(st, c) ==> IsBlocked(st', c)) && (IsRunnable(st', c) ==> IsRunnable(st, c))
  }

  lemma ShapeTransitive(a: Store, b: Store, c: Store)
    requires SameShape(a, b) && SameShape(b, c)
    ensures SameShape(a, c)
  {
    forall n | n in a ensures SameLinks(a[n], c[n]) {
      assert SameLinks(a[n], b[n]) && SameLinks(b[n], c[n]);
    }
  }

  lemma ShapeKeepsLinks(st: Store, st': Store, rank: map<Id, nat>)
    requires Linked(st, rank) && SameShape(st, st')
    ensures Linked(st', rank)
  {
    forall n | n in st' ensures LinkOk(st', rank, n) {
      assert LinkOk(st, rank, n) && SameLinks(st[n], st'[n]);
      forall c | c in Kids(st'[n].body) ensures st'[c].parent == Some(n) {
        assert SameLinks(st[c], st'[c]);
      }
      if st[n].parent.Some? {
        assert SameLinks(st[st[n].parent.value], st'[st[n].parent.value]);
      }
    }
  }

  lemma KidsInStore(st: Store, rank: map<Id, nat>, n: Id)
    requires Linked(st, rank) && n in st
    ensures forall c :: c in Kids(st[n].body) ==> c in st && c != n && st[c].parent == Some(n)
  {
    assert LinkOk(st, rank, n);
    forall c | c in Kids(st[n].body) ensures c != n {
      assert LinkOk(st, rank, c);
    }
  }

  /** Consistency of a class depends on its own fields and on the flags of its children. */
  lemma NodeFrame(st: Store, st': Store, n: Id)
    requires n in st && n in st' && st'[n].body == st[n].body && st'[n].blocked == st[n].blocked
    requires forall c :: c in Kids(st[n].body) ==>
      IsBlocked(st', c) == IsBlocked(st, c) && IsRunnable(st', c) == IsRunnable(st, c)
    requires NodeOk(st, n)
    ensures NodeOk(st', n)
  {
    match st[n].body
    case Priority(children, first) =>
      forall i | 0 <= i < |children| ensures children[i].c in Kids(st[n].body) {
        assert Ids(children)[i] in multiset(Ids(children));
      }
    case WeightedFair(_, runnable, sleeping) =>
      forall i | 0 <= i < |runnable| ensures runnable[i].c in Kids(st[n].body) {
        BagIndex(runnable, i);
      }
      forall i | 0 <= i < |sleeping| ensures sleeping[i].c in Kids(st[n].body) {
        BagIndex(sleeping, i);
      }
    case RoundRobin(_, ready, waiting) =>
      forall i | 0 <= i < |ready| ensures ready[i] in Kids(st[n].body) {
        assert ready[i] in multiset(ready);
      }
      forall i | 0 <= i < |waiting| ensures waiting[i] in Kids(st[n].body) {
        assert waiting[i] in multiset(waiting);
      }
    case RateLimit(_, _, _) =>
    case Leaf(_, _) =>
  }

  /** The same, where one class that is not a child may have changed its flag. */
  lemma NodeFrameExcept(st: Store, st': Store, m: Id, n: Id)
    requires m in st && m in st' && st'[m].body == st[m].body && st'[m].blocked == st[m].blocked
    requires n !in Kids(st[m].body) && NodeOk(st, m)
    requires forall c :: c != n ==> IsBlocked(st', c) == IsBlocked(st, c) && IsRunnable(st', c) == IsRunnable(st, c)
    ensures NodeOk(st', m)
  {
    NodeFrame(st, st', m);
  }

  lemma NotMyKid(st: Store, rank: map<Id, nat>, m: Id, c: Id)
    requires Linked(st, rank) && m in st && c in st && st[c].parent != Some(m)
    ensures c !in Kids(st[m].body)
  {
    assert LinkOk(st, rank, m);
  }

  // ----- walking towards the root -----

  /** Every step to a parent climbs. */
  ghost predicate Climbs(st: Store, rank: map<Id, nat>) {
    forall n {:trigger st[n].parent} :: n in st ==>
      n in rank &&
      (st[n].parent.Some? ==>
         st[n].parent.value in st && st[n].parent.value in rank && rank[n] < rank[st[n].parent.value])
  }

  ghost function Above(rank: map<Id, nat>, n: Id): set<Id>
    requires n in rank
  {
    set x | x in rank && rank[x] > rank[n]
  }

  lemma LinkedClimbs(st: Store, rank: map<Id, nat>)
    requires Linked(st, rank)
    ensures Climbs(st, rank)
  {
    forall n | n in st ensures LinkOk(st, rank, n) {
    }
  }

  lemma AboveShrinks(rank: map<Id, nat>, n: Id, p: Id)
    requires n in rank && p in rank && rank[n] < rank[p]
    ensures Above(rank, p) < Above(rank, n)
  {
    assert p in Above(rank, n) && p !in Above(rank, p);
  }

  /** The first runnable child at or after position `i`. */
  function FirstRunnable(st: Store, children: seq<Prio>, i: nat): (r: nat)
    requires i <= |children|
    ensures i <= r <= |children|
    ensures forall j :: i <= j < r ==> IsBlocked(st, children[j].c)
    ensures r < |children| ==> !IsBlocked(st, children[r].c)
    decreases |children| - i
  {
    if i == |children| || !IsBlocked(st, children[i].c) then i else FirstRunnable(st, children, i + 1)
  }

  lemma ClimbsFrame(st: Store, rank: map<Id, nat>, n: Id, x: Node)
    requires Climbs(st, rank) && n in st && x.parent == st[n].parent
    ensures Climbs(st[n := x], rank)
  {
    forall m | m in st ensures st[n := x][m].parent == st[m].parent {
    }
  }

  // ----- the update of one class -----

  /** The update `x` of class `n` keeps the hierarchy and the wakeup times. */
  ghost predicate KeepsShape(st: Store, n: Id, x: Node)
    requires n in st
  {
    SameLinks(st[n], x) && WakeupTime(x.body) == WakeupTime(st[n].body)
  }

  lemma UpdateShape(st: Store, rank: map<Id, nat>, n: Id, x: Node)
    requires Linked(st, rank) && n in st && KeepsShape(st, n, x)
    ensures SameShape(st, st[n := x]) && SameWakeups(st, st[n := x]) && Linked(st[n := x], rank)
  {
    ShapeKeepsLinks(st, st[n := x], rank);
  }

  /** The update of class `n` disturbs nobody but its parent, and not even the parent if the flag stays. */
  lemma UpdateDisturbsParentOnly(st: Store, rank: map<Id, nat>, n: Id, x: Node)
    requires Linked(st, rank) && n in st && OkExcept(st, n)
    requires x.parent == st[n].parent && NodeOk(st[n := x], n)
    ensures forall m {:trigger NodeOk(st[n := x], m)} ::
      m in st && (Some(m) != x.parent || x.blocked == st[n].blocked) ==> NodeOk(st[n := x], m)
  {
    var st' := st[n := x];
    forall m | m in st && m != n && (Some(m) != x.parent || x.blocked == st[n].blocked) ensures NodeOk(st', m) {
      assert NodeOk(st, m);
      assert LinkOk(st, rank, m);
      NodeFrame(st, st', m);
    }
  }

  lemma UpdateOnlyUnblocks(st: Store, n: Id, x: Node)
    requires n in st && (x.blocked ==> st[n].blocked)
    ensures OnlyUnblocks(st, st[n := x])
  {
  }

  lemma UpdateOnlyBlocks(st: Store, n: Id, x: Node)
    requires n in st && (st[n].blocked ==> x.blocked)
    ensures OnlyBlocks(st, st[n := x])
  {
  }

  /** Flags of the children are not affected by an update of their parent. */
  lemma WfFrame(st: Store, st': Store, n: Id, b: Body)
    requires b.WeightedFair? && n !in Kids(b)
    requires forall c :: c != n ==> IsBlocked(st', c) == IsBlocked(st, c) && IsRunnable(st', c) == IsRunnable(st, c)
    ensures EntriesRunnable(st, b.runnable) ==> EntriesRunnable(st', b.runnable)
    ensures EntriesBlocked(st, b.sleeping) ==> EntriesBlocked(st', b.sleeping)
  {
    forall i | 0 <= i < |b.runnable| ensures b.runnable[i].c != n {
      BagIndex(b.runnable, i);
    }
    forall i | 0 <= i < |b.sleeping| ensures b.sleeping[i].c != n {
      BagIndex(b.sleeping, i);
    }
  }

  lemma RrFrame(st: Store, st': Store, n: Id, b: Body)
    requires b.RoundRobin? && n !in Kids(b)
    requires forall c :: c != n ==> IsBlocked(st', c) == IsBlocked(st, c) && IsRunnable(st', c) == IsRunnable(st, c)
    ensures AllRunnable(st, b.ready) ==> AllRunnable(st', b.ready)
    ensures AllBlocked(st, b.waiting) ==> AllBlocked(st', b.waiting)
  {
    forall i | 0 <= i < |b.ready| ensures b.ready[i] != n {
      assert b.ready[i] in multiset(b.ready);
    }
    forall i | 0 <= i < |b.waiting| ensures b.waiting[i] != n {
      assert b.waiting[i] in multiset(b.waiting);
    }
  }

  /** New lists for the same children, each list holding the children it should. */
  lemma WfUpdate(st: Store, n: Id, x: Node, runnable: seq<Entry>, sleeping: seq<Entry>)
    requires n in st && st[n].body.WeightedFair? && n !in Kids(st[n].body)
    requires x.parent == st[n].parent && x.body == WeightedFair(st[n].body.resource, runnable, sleeping)
    requires Bag(runnable) + Bag(sleeping) == Bag(st[n].body.runnable) + Bag(st[n].body.sleeping)
    requires EntriesRunnable(st, runnable) && EntriesBlocked(st, sleeping) && (x.blocked <==> runnable == [])
    ensures KeepsShape(st, n, x) && NodeOk(st[n := x], n)
  {
    assert Kids(x.body) == Kids(st[n].body);
    WfFrame(st, st[n := x], n, x.body);
  }

  lemma RrUpdate(st: Store, n: Id, x: Node, ready: seq<Id>, waiting: seq<Id>)
    requires n in st && st[n].body.RoundRobin? && n !in Kids(st[n].body)
    requires x.parent == st[n].parent && x.body.RoundRobin? && x.body.ready == ready && x.body.waiting == waiting
    requires multiset(ready) + multiset(waiting) == multiset(st[n].body.ready) + multiset(st[n].body.waiting)
    requires AllRunnable(st, ready) && AllBlocked(st, waiting) && (x.blocked <==> ready == [])
    requires if ready == [] then x.body.nextChild == 0 else x.body.nextChild < |ready|
    ensures KeepsShape(st, n, x) && NodeOk(st[n := x], n)
  {
    assert Kids(x.body) == Kids(st[n].body);
    RrFrame(st, st[n := x], n, x.body);
  }

  lemma EraseBag(q: seq<Entry>, k: nat)
    requires k < |q|
    ensures Bag(q) == Bag(q[..k] + q[k + 1..]) + multiset{q[k].c}
  {
    var front, back := q[..k], q[k + 1..];
    assert q == front + ([q[k]] + back);
    BagAppend(front, back);
    BagAppend(front, [q[k]] + back);
    BagCons(q[k], back);
    Regroup(Bag(front), Bag(back), q[k].c);
  }

  lemma BagCons(e: Entry, q: seq<Entry>)
    ensures Bag([e] + q) == multiset{e.c} + Bag(q)
  {
    assert ([e] + q)[1..] == q;
  }

  lemma Regroup(x: multiset<Id>, y: multiset<Id>, c: Id)
    ensures x + (multiset{c} + y) == (x + y) + multiset{c}
  {
  }

  lemma BagSnoc(q: seq<Entry>, e: Entry)
    ensures Bag(q + [e]) == Bag(q) + multiset{e.c}
  {
    BagAppend(q, [e]);
    assert [e][1..] == [];
  }

  lemma EraseMultiset(s: seq<Id>, i: nat)
    requires i < |s|
    ensures multiset(s[..i] + s[i + 1..]) + multiset{s[i]} == multiset(s)
  {
    assert s == s[..i] + ([s[i]] + s[i + 1..]);
  }

  lemma SumWith(a: multiset<Id>, b: multiset<Id>, c: multiset<Id>, d: multiset<Id>, e: multiset<Id>)
    requires a + b == c + d
    ensures a + (e + b) == c + (e + d)
  {
    assert a + (e + b) == e + (a + b);
    assert c + (e + d) == e + (c + d);
  }
}

/** `UnblockTowardsRoot` of every kind of class (bess/core/traffic_class.cc, bess/core/traffic_class.h). */
module TcUnblock {
  import opened Wrappers
  import opened Stride
  import opened TokenBucket
  import opened TrafficClass

  /** The queue once the unblocked children have left the blocked list, each from the then current minimum. */
  function JoinAwake(st: Store, runnable: seq<Entry>, sleeping: seq<Entry>): seq<Entry>
    decreases |sleeping|
  {
    if sleeping == [] then runnable
    else if IsBlocked(st, sleeping[0].c) then JoinAwake(st, runnable, sleeping[1..])
    else JoinAwake(st, Rejoined(runnable, sleeping[0]), sleeping[1..])
  }

  /** The blocked list once the unblocked children have left it. */
  function StillAsleep(st: Store, sleeping: seq<Entry>): seq<Entry> {
    if sleeping == [] then []
    else (if IsBlocked(st, sleeping[0].c) then [sleeping[0]] else []) + StillAsleep(st, sleeping[1..])
  }

  function Awake(st: Store, waiting: seq<Id>): seq<Id> {
    if waiting == [] then []
    else (if IsBlocked(st, waiting[0]) then [] else [waiting[0]]) + Awake(st, waiting[1..])
  }

  function Asleep(st: Store, waiting: seq<Id>): seq<Id> {
    if waiting == [] then []
    else (if IsBlocked(st, waiting[0]) then [waiting[0]] else []) + Asleep(st, waiting[1..])
  }

  function UnblockBody(st: Store, b: Body, tsc: nat): Body {
    match b
    case Priority(children, _) => Priority(children, FirstRunnable(st, children, 0))
    case WeightedFair(resource, runnable, sleeping) =>
      WeightedFair(resource, JoinAwake(st, runnable, sleeping), StillAsleep(st, sleeping))
    case RoundRobin(next, ready, waiting) => RoundRobin(next, ready + Awake(st, waiting), Asleep(st, waiting))
    case RateLimit(resource, bucket, child) => RateLimit(resource, Unblocked(bucket, tsc), child)
    case Leaf(_, _) => b
  }

  /** `nowblocked` as computed by `UnblockTowardsRoot` from the updated lists. */
  predicate NowBlocked(st: Store, b: Body) {
    match b
    case Priority(children, first) => first >= |children|
    case WeightedFair(_, runnable, _) => runnable == []
    case RoundRobin(_, ready, _) => ready == []
    case RateLimit(_, bucket, child) => HeldBack(st, bucket, child)
    case Leaf(_, _) => false
  }

  function UnblockNode(st: Store, n: Id, tsc: nat): Node
    requires n in st
  {
    var b := UnblockBody(st, st[n].body, tsc);
    Node(st[n].parent, NowBlocked(st, b), b)
  }

  /** The state in which `UnblockTowardsRoot` is called on class `n`. */
  ghost predicate UnblockReady(st: Store, n: Id)
    requires n in st
  {
    match st[n].body
    case Priority(children, _) =>
      !st[n].blocked ==> exists i :: 0 <= i < |children| && IsRunnable(st, children[i].c)
    case WeightedFair(_, runnable, _) => EntriesRunnable(st, runnable) && (!st[n].blocked ==> runnable != [])
    case RoundRobin(next, ready, _) =>
      && AllRunnable(st, ready) && (!st[n].blocked ==> ready != [])
      && (if ready == [] then next == 0 else next < |ready|)
    case RateLimit(_, bucket, child) => !st[n].blocked ==> !HeldBack(st, bucket, child)
    case Leaf(_, wakeup) => wakeup == 0
  }

  lemma {:induction false} WakeAllSound(st: Store, runnable: seq<Entry>, sleeping: seq<Entry>)
    requires EntriesRunnable(st, runnable) && InStore(st, sleeping)
    ensures EntriesRunnable(st, JoinAwake(st, runnable, sleeping)) && EntriesBlocked(st, StillAsleep(st, sleeping))
    ensures Bag(JoinAwake(st, runnable, sleeping)) + Bag(StillAsleep(st, sleeping)) == Bag(runnable) + Bag(sleeping)
    ensures runnable != [] ==> JoinAwake(st, runnable, sleeping) != []
    decreases |sleeping|
  {
    if sleeping != [] {
      var e, rest := sleeping[0], sleeping[1..];
      if !IsBlocked(st, e.c) {
        RejoinSound(st, runnable, e);
        WakeAllSound(st, Rejoined(runnable, e), rest);
        assert StillAsleep(st, sleeping) == StillAsleep(st, rest);
        SameSum(Bag(JoinAwake(st, runnable, sleeping)), Bag(StillAsleep(st, rest)), Bag(runnable), multiset{e.c}, Bag(rest));
      } else {
        WakeAllSound(st, runnable, rest);
        KeepSound(st, e, StillAsleep(st, rest));
        SumWith(Bag(JoinAwake(st, runnable, rest)), Bag(StillAsleep(st, rest)), Bag(runnable), Bag(rest), multiset{e.c});
      }
    }
  }

  lemma SameSum(a: multiset<Id>, b: multiset<Id>, c: multiset<Id>, e: multiset<Id>, d: multiset<Id>)
    requires a + b == (c + e) + d
    ensures a + b == c + (e + d)
  {
  }

  lemma RejoinSound(st: Store, runnable: seq<Entry>, e: Entry)
    requires EntriesRunnable(st, runnable) && IsRunnable(st, e.c)
    ensures EntriesRunnable(st, Rejoined(runnable, e)) && Rejoined(runnable, e) != []
    ensures Bag(Rejoined(runnable, e)) == Bag(runnable) + multiset{e.c}
  {
    var e' := e.(pass := NextPass(runnable) + e.pass);
    var pushed := Push(runnable, e');
    PushBag(runnable, e');
    forall i | 0 <= i < |pushed| ensures IsRunnable(st, pushed[i].c) {
      PushMember(runnable, e', i);
    }
  }

  /** Unblocking looks at each waiting child on its own, and keeps their order on either list. */
  lemma {:induction false} AwakeInOrder(st: Store, a: seq<Id>, b: seq<Id>)
    ensures Awake(st, a + b) == Awake(st, a) + Awake(st, b)
    ensures Asleep(st, a + b) == Asleep(st, a) + Asleep(st, b)
  {
    if a == [] {
      assert a + b == b;
    } else {
      var ab := a + b;
      assert ab[0] == a[0] && ab[1..] == a[1..] + b;
      AwakeInOrder(st, a[1..], b);
      var awake := if IsBlocked(st, a[0]) then [] else [a[0]];
      var asleep := if IsBlocked(st, a[0]) then [a[0]] else [];
      Associates(awake, Awake(st, a[1..]), Awake(st, b));
      Associates(asleep, Asleep(st, a[1..]), Asleep(st, b));
    }
  }

  lemma Associates(x: seq<Id>, y: seq<Id>, z: seq<Id>)
    ensures x + (y + z) == (x + y) + z
  {
  }

  lemma AwakeAlone(st: Store, c: Id)
    ensures Awake(st, [c]) == (if IsBlocked(st, c) then [] else [c])
    ensures Asleep(st, [c]) == (if IsBlocked(st, c) then [c] else [])
  {
    assert [c][1..] == [];
  }

  lemma KeepSound(st: Store, e: Entry, s: seq<Entry>)
    requires EntriesBlocked(st, s) && IsBlocked(st, e.c)
    ensures EntriesBlocked(st, [e] + s) && Bag([e] + s) == multiset{e.c} + Bag(s)
  {
    assert ([e] + s)[1..] == s;
  }

  lemma ConsMultiset(c: Id, rest: seq<Id>)
    ensures multiset([c] + rest) == multiset{c} + multiset(rest)
  {
  }

  lemma {:induction false} AwakeFlags(st: Store, waiting: seq<Id>)
    requires forall i :: 0 <= i < |waiting| ==> waiting[i] in st
    ensures AllRunnable(st, Awake(st, waiting)) && AllBlocked(st, Asleep(st, waiting))
  {
    if waiting != [] {
      AwakeFlags(st, waiting[1..]);
    }
  }

  lemma AwakeOne(up: multiset<Id>, down: multiset<Id>, rest: multiset<Id>, c: multiset<Id>)
    requires up + down == rest
    ensures up + (c + down) == c + rest && (c + up) + down == c + rest
  {
  }

  lemma {:induction false} AwakeSound(st: Store, waiting: seq<Id>)
    requires forall i :: 0 <= i < |waiting| ==> waiting[i] in st
    ensures AllRunnable(st, Awake(st, waiting)) && AllBlocked(st, Asleep(st, waiting))
    ensures multiset(Awake(st, waiting)) + multiset(Asleep(st, waiting)) == multiset(waiting)
  {
    AwakeFlags(st, waiting);
    AwakeBag(st, waiting);
  }

  lemma {:induction false} AwakeBag(st: Store, waiting: seq<Id>)
    ensures multiset(Awake(st, waiting)) + multiset(Asleep(st, waiting)) == multiset(waiting)
  {
    if waiting != [] {
      var c, rest := waiting[0], waiting[1..];
      var up, down := Awake(st, rest), Asleep(st, rest);
      AwakeBag(st, rest);
      AwakeOne(multiset(up), multiset(down), multiset(rest), multiset{c});
      ConsMultiset(c, rest);
      assert waiting == [c] + rest;
      if IsBlocked(st, c) {
        ConsMultiset(c, down);
        assert Awake(st, waiting) == up && Asleep(st, waiting) == [c] + down;
      } else {
        ConsMultiset(c, up);
        assert Awake(st, waiting) == [c] + up && Asleep(st, waiting) == down;
      }
    }
  }

  /** After the update of its own lists and flag, class `n` is consistent. */
  ghost predicate UnblockedWell(st: Store, n: Id, tsc: nat)
    requires n in st
  {
    var x := UnblockNode(st, n, tsc);
    && KeepsShape(st, n, x)
    && NodeOk(st[n := x], n)
    && (x.blocked ==> st[n].blocked)
  }

  lemma UnblockPriority(st: Store, n: Id, tsc: nat)
    requires n in st && st[n].body.Priority? && UnblockReady(st, n)
    requires forall c :: c in Kids(st[n].body) ==> c in st && c != n
    ensures UnblockedWell(st, n, tsc)
  {
    var children := st[n].body.children;
    forall i | 0 <= i < |children| ensures children[i].c in st && children[i].c != n {
      assert Ids(children)[i] in Kids(st[n].body);
    }
  }

  lemma UnblockWeightedFair(st: Store, n: Id, tsc: nat)
    requires n in st && st[n].body.WeightedFair? && UnblockReady(st, n)
    requires forall c :: c in Kids(st[n].body) ==> c in st && c != n
    ensures UnblockedWell(st, n, tsc)
  {
    var x, runnable, sleeping := UnblockNode(st, n, tsc), st[n].body.runnable, st[n].body.sleeping;
    forall i | 0 <= i < |sleeping| ensures sleeping[i].c in st {
      BagIndex(sleeping, i);
    }
    WakeAllSound(st, runnable, sleeping);
    WfUpdate(st, n, x, JoinAwake(st, runnable, sleeping), StillAsleep(st, sleeping));
  }

  lemma AwakeKids(ready: seq<Id>, waiting: seq<Id>, awake: seq<Id>, asleep: seq<Id>)
    requires multiset(awake) + multiset(asleep) == multiset(waiting)
    ensures multiset(ready + awake) + multiset(asleep) == multiset(ready) + multiset(waiting)
  {
  }

  lemma UnblockRoundRobin(st: Store, n: Id, tsc: nat)
    requires n in st && st[n].body.RoundRobin? && UnblockReady(st, n)
    requires forall c :: c in Kids(st[n].body) ==> c in st && c != n
    ensures UnblockedWell(st, n, tsc)
  {
    var x, ready, waiting := UnblockNode(st, n, tsc), st[n].body.ready, st[n].body.waiting;
    forall i | 0 <= i < |waiting| ensures waiting[i] in st {
      assert waiting[i] in multiset(waiting);
    }
    AwakeSound(st, waiting);
    AwakeKids(ready, waiting, Awake(st, waiting), Asleep(st, waiting));
    RrUpdate(st, n, x, ready + Awake(st, waiting), Asleep(st, waiting));
  }

  lemma UnblockNodeSound(st: Store, rank: map<Id, nat>, n: Id, tsc: nat)
    requires Linked(st, rank) && n in st && UnblockReady(st, n)
    ensures UnblockedWell(st, n, tsc)
  {
    KidsInStore(st, rank, n);
    match st[n].body
    case Priority(_, _) => UnblockPriority(st, n, tsc);
    case WeightedFair(_, _, _) => UnblockWeightedFair(st, n, tsc);
    case RoundRobin(_, _, _) => UnblockRoundRobin(st, n, tsc);
    case RateLimit(_, _, _) =>
    case Leaf(_, _) =>
  }

  // ----- towards the root -----

  /** `UnblockTowardsRoot` on class `n`: its parent is told if it became unblocked. */
  ghost function UnblockUp(st: Store, rank: map<Id, nat>, n: Id, tsc: nat): Store
    requires Climbs(st, rank) && n in st
    decreases Above(rank, n)
  {
    var x := UnblockNode(st, n, tsc);
    var st' := st[n := x];
    if x.parent.None? || x.blocked || !st[n].blocked then st'
    else
      AboveShrinks(rank, n, x.parent.value);
      ClimbsFrame(st, rank, n, x);
      UnblockUp(st', rank, x.parent.value, tsc)
  }

  /** A consistent class is ready to be told that one of its children became unblocked. */
  lemma ReadyAfterUnblock(st: Store, st': Store, p: Id)
    requires p in st && p in st' && st'[p] == st[p] && NodeOk(st, p) && OnlyUnblocks(st, st')
    requires Kids(st[p].body) != multiset{}
    ensures UnblockReady(st', p)
  {
    match st[p].body
    case Priority(children, first) =>
      if !st[p].blocked {
        assert IsRunnable(st', children[first].c);
      }
    case WeightedFair(_, _, _) =>
    case RoundRobin(_, _, _) =>
    case RateLimit(_, _, _) =>
    case Leaf(_, _) =>
  }

  /** The parent of a class that became unblocked is ready for the same. */
  lemma ParentReady(st: Store, rank: map<Id, nat>, n: Id, x: Node)
    requires Linked(st, rank) && n in st && OkExcept(st, n)
    requires x.parent == st[n].parent && x.parent.Some? && OnlyUnblocks(st, st[n := x])
    ensures var p := x.parent.value; p in st && p in rank && n in rank && rank[n] < rank[p] && UnblockReady(st[n := x], p)
  {
    assert LinkOk(st, rank, n);
    assert NodeOk(st, x.parent.value);
    ReadyAfterUnblock(st, st[n := x], x.parent.value);
  }

  lemma ShapeChains(a: Store, b: Store, c: Store)
    requires SameShape(a, b) && SameWakeups(a, b) && OnlyUnblocks(a, b)
    requires SameShape(b, c) && SameWakeups(b, c) && OnlyUnblocks(b, c)
    ensures SameShape(a, c) && SameWakeups(a, c) && OnlyUnblocks(a, c)
  {
    ShapeTransitive(a, b, c);
  }

  /**
   `UnblockTowardsRoot` restores consistency of the whole tree: called where only class `n` may have
   missed that a child of it, or its own wakeup time, no longer holds it back, it leaves every class
   consistent, blocks no class, and changes neither the hierarchy nor a wakeup time.
   */
  lemma {:induction false} UnblockUpSound(st: Store, rank: map<Id, nat>, n: Id, tsc: nat)
    requires Linked(st, rank) && Climbs(st, rank) && n in st && OkExcept(st, n) && UnblockReady(st, n)
    ensures var st' := UnblockUp(st, rank, n, tsc);
      SameShape(st, st') && SameWakeups(st, st') && Linked(st', rank) && AllOk(st') && OnlyUnblocks(st, st')
    decreases Above(rank, n)
  {
    var x := UnblockNode(st, n, tsc);
    var st' := st[n := x];
    UnblockNodeSound(st, rank, n, tsc);
    UpdateDisturbsParentOnly(st, rank, n, x);
    UpdateShape(st, rank, n, x);
    UpdateOnlyUnblocks(st, n, x);
    if x.parent.None? || x.blocked || !st[n].blocked {
      assert UnblockUp(st, rank, n, tsc) == st';
    } else {
      var p := x.parent.value;
      ClimbsFrame(st, rank, n, x);
      AboveShrinks(rank, n, p);
      ParentReady(st, rank, n, x);
      UnblockUpSound(st', rank, p, tsc);
      assert UnblockUp(st, rank, n, tsc) == UnblockUp(st', rank, p, tsc);
      ShapeChains(st, st', UnblockUp(st', rank, p, tsc));
    }
  }

  lemma {:induction false} JoinAwakeSorted(st: Store, runnable: seq<Entry>, sleeping: seq<Entry>)
    requires Sorted(runnable)
    ensures Sorted(JoinAwake(st, runnable, sleeping))
    decreases |sleeping|
  {
    if sleeping != [] {
      PushSorted(runnable, sleeping[0].(pass := NextPass(runnable) + sleeping[0].pass));
      JoinAwakeSorted(st, if IsBlocked(st, sleeping[0].c) then runnable else Rejoined(runnable, sleeping[0]), sleeping[1..]);
    }
  }

  lemma UnblockInOrder(st: Store, n: Id, tsc: nat, now: nat)
    requires n in st && AllInOrder(st, now) && tsc <= now
    ensures AllInOrder(st[n := UnblockNode(st, n, tsc)], now)
  {
    assert InOrder(st[n].body, now);
    if st[n].body.WeightedFair? {
      JoinAwakeSorted(st, st[n].body.runnable, st[n].body.sleeping);
    }
  }

  /** Lists stay in order, and limiters on the way count tokens from `tsc`. */
  lemma {:induction false} UnblockUpInOrder(st: Store, rank: map<Id, nat>, n: Id, tsc: nat, now: nat)
    requires Climbs(st, rank) && n in st && n in rank && AllInOrder(st, now) && tsc <= now
    ensures AllInOrder(UnblockUp(st, rank, n, tsc), now)
    decreases Above(rank, n)
  {
    var x := UnblockNode(st, n, tsc);
    UnblockInOrder(st, n, tsc, now);
    if x.parent.Some? && !x.blocked && st[n].blocked {
      AboveShrinks(rank, n, x.parent.value);
      ClimbsFrame(st, rank, n, x);
      UnblockUpInOrder(st[n := x], rank, x.parent.value, tsc, now);
    }
  }
}

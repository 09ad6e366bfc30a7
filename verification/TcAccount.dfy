/**
 `PickNextChild` down to a leaf (bess/core/scheduler.h:181-195) and `FinishAndAccountTowardsRoot` back up
 (bess/core/traffic_class.cc).
 */
module TcAccount {
  import opened Wrappers
  import opened Stride
  import opened TokenBucket
  import opened TrafficClass

  // ----- down -----

  /** `Next`: follow `PickNextChild` from class `n` to a leaf. */
  ghost function PickLeaf(st: Store, rank: map<Id, nat>, n: Id): Id
    requires Linked(st, rank) && Climbs(st, rank) && AllOk(st) && IsRunnable(st, n)
    decreases rank[n]
  {
    if st[n].body.Leaf? then n
    else
      assert NodeOk(st, n);
      PickIsRunnable(st, rank, n);
      PickLeaf(st, rank, Pick(st[n].body).value)
  }

  /** Every class above `n` up to the root is unblocked and picks the next one down. */
  ghost predicate PathReady(st: Store, rank: map<Id, nat>, n: Id)
    requires Climbs(st, rank) && n in st
    decreases Above(rank, n)
  {
    st[n].parent.Some? ==>
      var p := st[n].parent.value;
      AboveShrinks(rank, n, p);
      !st[p].blocked && Pick(st[p].body) == Some(n) && PathReady(st, rank, p)
  }

  /** From an unblocked class, `Next` ends at an unblocked leaf, picked by every class above it. */
  lemma {:induction false} NextEndsAtLeaf(st: Store, rank: map<Id, nat>, n: Id)
    requires Linked(st, rank) && Climbs(st, rank) && AllOk(st) && IsRunnable(st, n) && PathReady(st, rank, n)
    ensures var leaf := PickLeaf(st, rank, n);
      IsRunnable(st, leaf) && st[leaf].body.Leaf? && PathReady(st, rank, leaf)
    decreases rank[n]
  {
    if !st[n].body.Leaf? {
      assert NodeOk(st, n);
      PickIsRunnable(st, rank, n);
      var c := Pick(st[n].body).value;
      KidsInStore(st, rank, n);
      NextEndsAtLeaf(st, rank, c);
    }
  }

  // ----- up -----

  /** The round robin moves on, and wraps around. */
  function Wrap(next: nat, len: nat): nat {
    if next >= len then 0 else next
  }

  /** Class `p` accounts for the usage of its child `c`. */
  function AccountNode(st: Store, p: Id, c: Id, usage: Usage, tsc: nat): Node
    requires p in st && Pick(st[p].body) == Some(c) && InOrder(st[p].body, tsc)
  {
    var x := st[p];
    match x.body
    case Priority(children, first) =>
      if IsBlocked(st, c) then
        var first' := FirstRunnable(st, children, first);
        Node(x.parent, first' == |children|, Priority(children, first'))
      else x
    case WeightedFair(resource, runnable, sleeping) =>
      var delta := PassDelta(runnable[0], usage.Of(resource));
      if IsBlocked(st, c) then
        Node(x.parent, runnable[1..] == [],
             WeightedFair(resource, runnable[1..], sleeping + [runnable[0].(pass := delta)]))
      else Node(x.parent, x.blocked, WeightedFair(resource, Charged(runnable, delta), sleeping))
    case RoundRobin(next, ready, waiting) =>
      if IsBlocked(st, c) then
        Node(x.parent, |ready| == 1,
             RoundRobin(Wrap(next, |ready| - 1), ready[..next] + ready[next + 1..], waiting + [c]))
      else Node(x.parent, x.blocked, RoundRobin(Wrap(next + usage.count, |ready|), ready, waiting))
    case RateLimit(resource, bucket, child) =>
      var consumed := ToWorkUnits(usage.Of(resource));
      Node(x.parent, x.blocked || Exceeds(bucket, tsc, consumed) || IsBlocked(st, c),
           RateLimit(resource, TokenBucket.Charge(bucket, tsc, consumed), child))
    case Leaf(_, _) => x
  }

  /** A class is put on the wakeup queue exactly when it has a positive limit and exceeds its tokens. */
  predicate Throttles(b: Body, usage: Usage, tsc: nat) {
    b.RateLimit? && b.bucket.limit > 0 && b.bucket.lastTsc <= tsc && Exceeds(b.bucket, tsc, ToWorkUnits(usage.Of(b.limited)))
  }

  /** Accounting at class `p` may begin: it was consistent while its picked child `c` was unblocked. */
  ghost predicate AccountReady(st: Store, p: Id, c: Id) {
    && p in st && c in st && p != c && !st[p].blocked && Pick(st[p].body) == Some(c)
    && Kids(st[p].body)[c] == 1 && (forall d :: d in Kids(st[p].body) ==> d in st && d != p)
    && NodeOk(st[c := st[c].(blocked := false)], p)
  }

  /** The hierarchy is kept, and only throttling sets a wakeup time. */
  ghost predicate KeepsTree(st: Store, p: Id, x: Node)
    requires p in st
  {
    SameLinks(st[p], x)
  }

  ghost predicate AccountedWell(st: Store, p: Id, c: Id, usage: Usage, tsc: nat)
    requires AccountReady(st, p, c) && InOrder(st[p].body, tsc)
  {
    var x := AccountNode(st, p, c, usage, tsc);
    && KeepsTree(st, p, x) && NodeOk(st[p := x], p)
    && (WakeupTime(x.body) != 0 <==> Throttles(st[p].body, usage, tsc)) && WakeupTime(st[p].body) == 0
    && (x.body.RateLimit? ==> x.body.bucket.lastTsc <= tsc)
  }

  lemma AccountPriority(st: Store, p: Id, c: Id, usage: Usage, tsc: nat)
    requires AccountReady(st, p, c) && InOrder(st[p].body, tsc) && st[p].body.Priority?
    ensures AccountedWell(st, p, c, usage, tsc)
  {
    var children, first := st[p].body.children, st[p].body.firstRunnable;
    forall i | 0 <= i < |children| ensures children[i].c in st && children[i].c != p {
      assert Ids(children)[i] in Kids(st[p].body);
    }
    var lit := st[c := st[c].(blocked := false)];
    forall i | 0 <= i < first ensures IsBlocked(st, children[i].c) {
      assert IsBlocked(lit, children[i].c);
    }
  }

  /** Without its head the queue holds runnable children only, whatever became of the head. */
  lemma TailRunnable(st: Store, q: seq<Entry>, c: Id)
    requires c in st && q != [] && q[0].c == c && Bag(q)[c] <= 1
    requires EntriesRunnable(st[c := st[c].(blocked := false)], q)
    ensures EntriesRunnable(st, q[1..])
  {
    forall i | 0 <= i < |q[1..]| ensures IsRunnable(st, q[1..][i].c) {
      assert IsRunnable(st[c := st[c].(blocked := false)], q[i + 1].c);
      if q[i + 1].c == c {
        BagIndex(q[1..], i);
      }
    }
  }

  lemma SleepersStayBlocked(st: Store, q: seq<Entry>, c: Id)
    requires c in st && EntriesBlocked(st[c := st[c].(blocked := false)], q)
    ensures EntriesBlocked(st, q)
  {
    forall i | 0 <= i < |q| ensures IsBlocked(st, q[i].c) {
      assert IsBlocked(st[c := st[c].(blocked := false)], q[i].c);
    }
  }

  lemma SleepHead(st: Store, q: seq<Entry>, sleeping: seq<Entry>, pass: real)
    requires q != [] && IsBlocked(st, q[0].c) && EntriesBlocked(st, sleeping)
    ensures EntriesBlocked(st, sleeping + [q[0].(pass := pass)])
    ensures Bag(q[1..]) + Bag(sleeping + [q[0].(pass := pass)]) == Bag(q) + Bag(sleeping)
  {
    BagSnoc(sleeping, q[0].(pass := pass));
  }

  lemma ChargedSound(st: Store, q: seq<Entry>, delta: real)
    requires q != [] && EntriesRunnable(st, q)
    ensures Bag(Charged(q, delta)) == Bag(q) && EntriesRunnable(st, Charged(q, delta)) && Charged(q, delta) != []
  {
    var e := q[0].(pass := q[0].pass + delta);
    PushBag(q[1..], e);
    var r := Charged(q, delta);
    forall i | 0 <= i < |r| ensures IsRunnable(st, r[i].c) {
      PushMember(q[1..], e, i);
    }
  }

  lemma WfAccounted(st: Store, p: Id, c: Id, usage: Usage, tsc: nat, runnable: seq<Entry>, sleeping: seq<Entry>)
    requires AccountReady(st, p, c) && InOrder(st[p].body, tsc) && st[p].body.WeightedFair?
    requires AccountNode(st, p, c, usage, tsc)
      == Node(st[p].parent, runnable == [], WeightedFair(st[p].body.resource, runnable, sleeping))
    requires Bag(runnable) + Bag(sleeping) == Bag(st[p].body.runnable) + Bag(st[p].body.sleeping)
    requires EntriesRunnable(st, runnable) && EntriesBlocked(st, sleeping)
    ensures AccountedWell(st, p, c, usage, tsc)
  {
    WfUpdate(st, p, AccountNode(st, p, c, usage, tsc), runnable, sleeping);
  }

  lemma AccountSleeper(st: Store, p: Id, c: Id, usage: Usage, tsc: nat)
    requires AccountReady(st, p, c) && InOrder(st[p].body, tsc) && st[p].body.WeightedFair? && IsBlocked(st, c)
    requires EntriesBlocked(st, st[p].body.sleeping) && EntriesRunnable(st, st[p].body.runnable[1..])
    ensures AccountedWell(st, p, c, usage, tsc)
  {
    var b := st[p].body;
    var delta := PassDelta(b.runnable[0], usage.Of(b.resource));
    var rest, sleeping := b.runnable[1..], b.sleeping + [b.runnable[0].(pass := delta)];
    SleepHead(st, b.runnable, b.sleeping, delta);
    WfAccounted(st, p, c, usage, tsc, rest, sleeping);
  }

  lemma AccountRunner(st: Store, p: Id, c: Id, usage: Usage, tsc: nat)
    requires AccountReady(st, p, c) && InOrder(st[p].body, tsc) && st[p].body.WeightedFair? && !IsBlocked(st, c)
    requires EntriesBlocked(st, st[p].body.sleeping) && EntriesRunnable(st, st[p].body.runnable)
    ensures AccountedWell(st, p, c, usage, tsc)
  {
    var b := st[p].body;
    var delta := PassDelta(b.runnable[0], usage.Of(b.resource));
    ChargedSound(st, b.runnable, delta);
    WfAccounted(st, p, c, usage, tsc, Charged(b.runnable, delta), b.sleeping);
  }

  lemma AccountWeightedFair(st: Store, p: Id, c: Id, usage: Usage, tsc: nat)
    requires AccountReady(st, p, c) && InOrder(st[p].body, tsc) && st[p].body.WeightedFair?
    ensures AccountedWell(st, p, c, usage, tsc)
  {
    var runnable, sleeping := st[p].body.runnable, st[p].body.sleeping;
    assert (Bag(runnable) + Bag(sleeping))[c] == 1;
    SleepersStayBlocked(st, sleeping, c);
    if IsBlocked(st, c) {
      TailRunnable(st, runnable, c);
      AccountSleeper(st, p, c, usage, tsc);
    } else {
      forall i | 0 <= i < |runnable| ensures IsRunnable(st, runnable[i].c) {
        assert IsRunnable(st[c := st[c].(blocked := false)], runnable[i].c);
      }
      AccountRunner(st, p, c, usage, tsc);
    }
  }

  lemma RestReady(st: Store, ready: seq<Id>, k: nat, c: Id)
    requires c in st && k < |ready| && ready[k] == c && multiset(ready)[c] <= 1
    requires AllRunnable(st[c := st[c].(blocked := false)], ready)
    ensures AllRunnable(st, ready[..k] + ready[k + 1..])
    ensures multiset(ready[..k] + ready[k + 1..]) + multiset{c} == multiset(ready)
  {
    var rest := ready[..k] + ready[k + 1..];
    EraseMultiset(ready, k);
    forall i | 0 <= i < |rest| ensures IsRunnable(st, rest[i]) {
      var j := if i < k then i else i + 1;
      assert rest[i] == ready[j] && rest[i] in multiset(rest);
      assert IsRunnable(st[c := st[c].(blocked := false)], ready[j]);
    }
  }

  lemma AccountRoundRobin(st: Store, p: Id, c: Id, usage: Usage, tsc: nat)
    requires AccountReady(st, p, c) && InOrder(st[p].body, tsc) && st[p].body.RoundRobin?
    ensures AccountedWell(st, p, c, usage, tsc)
  {
    var ready, waiting := st[p].body.ready, st[p].body.waiting;
    var lit := st[c := st[c].(blocked := false)];
    forall i | 0 <= i < |waiting| ensures IsBlocked(st, waiting[i]) {
      assert IsBlocked(lit, waiting[i]);
    }
    if IsBlocked(st, c) {
      AccountRingSleeper(st, p, c, usage, tsc);
    } else {
      forall i | 0 <= i < |ready| ensures IsRunnable(st, ready[i]) {
        assert IsRunnable(lit, ready[i]);
      }
      RrUpdate(st, p, AccountNode(st, p, c, usage, tsc), ready, waiting);
    }
  }

  /** The child whose turn it was goes from the ring to the waiting children. */
  lemma RingSleeps(st: Store, ready: seq<Id>, waiting: seq<Id>, k: nat, c: Id)
    requires k < |ready| && ready[k] == c && (multiset(ready) + multiset(waiting))[c] == 1 && IsBlocked(st, c) && c in st
    requires AllRunnable(st[c := st[c].(blocked := false)], ready) && AllBlocked(st, waiting)
    ensures AllRunnable(st, ready[..k] + ready[k + 1..]) && AllBlocked(st, waiting + [c])
    ensures multiset(ready[..k] + ready[k + 1..]) + multiset(waiting + [c]) == multiset(ready) + multiset(waiting)
  {
    RestReady(st, ready, k, c);
    assert multiset(waiting + [c]) == multiset(waiting) + multiset{c};
  }

  lemma RrAccounted(st: Store, p: Id, c: Id, usage: Usage, tsc: nat, next: nat, ready: seq<Id>, waiting: seq<Id>)
    requires AccountReady(st, p, c) && InOrder(st[p].body, tsc) && st[p].body.RoundRobin?
    requires AccountNode(st, p, c, usage, tsc) == Node(st[p].parent, ready == [], RoundRobin(next, ready, waiting))
    requires multiset(ready) + multiset(waiting) == multiset(st[p].body.ready) + multiset(st[p].body.waiting)
    requires AllRunnable(st, ready) && AllBlocked(st, waiting)
    requires if ready == [] then next == 0 else next < |ready|
    ensures AccountedWell(st, p, c, usage, tsc)
  {
    RrUpdate(st, p, AccountNode(st, p, c, usage, tsc), ready, waiting);
  }

  lemma AccountRingSleeper(st: Store, p: Id, c: Id, usage: Usage, tsc: nat)
    requires AccountReady(st, p, c) && InOrder(st[p].body, tsc) && st[p].body.RoundRobin? && IsBlocked(st, c)
    requires AllBlocked(st, st[p].body.waiting)
    ensures AccountedWell(st, p, c, usage, tsc)
  {
    var b, x := st[p].body, AccountNode(st, p, c, usage, tsc);
    RingSleeps(st, b.ready, b.waiting, b.nextChild, c);
    RrAccounted(st, p, c, usage, tsc, x.body.nextChild, b.ready[..b.nextChild] + b.ready[b.nextChild + 1..], b.waiting + [c]);
  }

  lemma AccountNodeSound(st: Store, p: Id, c: Id, usage: Usage, tsc: nat)
    requires AccountReady(st, p, c) && InOrder(st[p].body, tsc) && tsc > 0
    ensures AccountedWell(st, p, c, usage, tsc)
  {
    match st[p].body
    case Priority(_, _) => AccountPriority(st, p, c, usage, tsc);
    case WeightedFair(_, _, _) => AccountWeightedFair(st, p, c, usage, tsc);
    case RoundRobin(_, _, _) => AccountRoundRobin(st, p, c, usage, tsc);
    case RateLimit(_, _, _) =>
  }

  // ----- the whole path -----

  /** `FinishAndAccountTowardsRoot` from class `n` on: every class above it accounts for the usage. */
  ghost function FinishUp(st: Store, rank: map<Id, nat>, n: Id, usage: Usage, tsc: nat): Store
    requires Climbs(st, rank) && n in st && PathReady(st, rank, n) && AllInOrder(st, tsc)
    decreases Above(rank, n)
  {
    if st[n].parent.None? then st
    else
      var p := st[n].parent.value;
      assert InOrder(st[p].body, tsc);
      var x := AccountNode(st, p, n, usage, tsc);
      AboveShrinks(rank, n, p);
      ClimbsFrame(st, rank, p, x);
      PathFrame(st, st[p := x], rank, p);
      AccountInOrder(st, p, n, usage, tsc);
      FinishUp(st[p := x], rank, p, usage, tsc)
  }

  /** The classes that accounting puts on the wakeup queue, in order. */
  ghost function ThrottledUp(st: Store, rank: map<Id, nat>, n: Id, usage: Usage, tsc: nat): seq<Id>
    requires Climbs(st, rank) && n in st
    decreases Above(rank, n)
  {
    if st[n].parent.None? then []
    else
      var p := st[n].parent.value;
      AboveShrinks(rank, n, p);
      (if Throttles(st[p].body, usage, tsc) then [p] else []) + ThrottledUp(st, rank, p, usage, tsc)
  }

  lemma AccountInOrder(st: Store, p: Id, c: Id, usage: Usage, tsc: nat)
    requires p in st && Pick(st[p].body) == Some(c) && InOrder(st[p].body, tsc) && AllInOrder(st, tsc)
    ensures AllInOrder(st[p := AccountNode(st, p, c, usage, tsc)], tsc)
  {
    assert InOrder(st[p].body, tsc);
    if st[p].body.WeightedFair? {
      var q := st[p].body.runnable;
      var delta := PassDelta(q[0], usage.Of(st[p].body.resource));
      PushSorted(q[1..], q[0].(pass := q[0].pass + delta));
    }
  }

  /** The path above `n` does not depend on `n` itself, nor on classes below it. */
  lemma {:induction false} PathFrame(st: Store, st': Store, rank: map<Id, nat>, n: Id)
    requires Climbs(st, rank) && Climbs(st', rank) && n in st && n in st' && PathReady(st, rank, n)
    requires st'[n].parent == st[n].parent
    requires forall m :: m in Above(rank, n) && m in st ==> m in st' && st'[m] == st[m]
    ensures PathReady(st', rank, n)
    decreases Above(rank, n)
  {
    if st[n].parent.Some? {
      var p := st[n].parent.value;
      AboveShrinks(rank, n, p);
      PathFrame(st, st', rank, p);
    }
  }

  /** Accounting from `n` is accounting at its parent, and then from there. */
  lemma OneStepUp(st: Store, rank: map<Id, nat>, n: Id, usage: Usage, tsc: nat)
    requires Climbs(st, rank) && n in st && PathReady(st, rank, n) && AllInOrder(st, tsc) && st[n].parent.Some?
    ensures var p := st[n].parent.value;
      && p in st && p in rank && n in rank && rank[n] < rank[p] && Pick(st[p].body) == Some(n) && InOrder(st[p].body, tsc)
      && var st1 := st[p := AccountNode(st, p, n, usage, tsc)];
         && Climbs(st1, rank) && PathReady(st1, rank, p) && AllInOrder(st1, tsc)
         && FinishUp(st, rank, n, usage, tsc) == FinishUp(st1, rank, p, usage, tsc)
  {
    var p := st[n].parent.value;
    assert InOrder(st[p].body, tsc);
    var x := AccountNode(st, p, n, usage, tsc);
    AboveShrinks(rank, n, p);
    ClimbsFrame(st, rank, p, x);
    PathFrame(st, st[p := x], rank, p);
    AccountInOrder(st, p, n, usage, tsc);
  }

  lemma {:induction false} ThrottledFrame(st: Store, st': Store, rank: map<Id, nat>, n: Id, usage: Usage, tsc: nat)
    requires Climbs(st, rank) && Climbs(st', rank) && n in st && n in st'
    requires st'[n].parent == st[n].parent
    requires forall m :: m in Above(rank, n) && m in st ==> m in st' && st'[m] == st[m]
    ensures ThrottledUp(st', rank, n, usage, tsc) == ThrottledUp(st, rank, n, usage, tsc)
    decreases Above(rank, n)
  {
    if st[n].parent.Some? {
      var p := st[n].parent.value;
      AboveShrinks(rank, n, p);
      ThrottledFrame(st, st', rank, p, usage, tsc);
    }
  }

  predicate NoDup(cs: seq<Id>) {
    forall i, j :: 0 <= i < j < |cs| ==> cs[i] != cs[j]
  }

  /** Each throttled class lies above `n`, and is listed once. */
  lemma {:induction false} ThrottledAbove(st: Store, rank: map<Id, nat>, n: Id, usage: Usage, tsc: nat)
    requires Climbs(st, rank) && n in st && n in rank
    ensures var added := ThrottledUp(st, rank, n, usage, tsc);
      NoDup(added) && forall i :: 0 <= i < |added| ==> added[i] in Above(rank, n) && added[i] in st
    decreases Above(rank, n)
  {
    if st[n].parent.Some? {
      var p := st[n].parent.value;
      AboveShrinks(rank, n, p);
      ThrottledAbove(st, rank, p, usage, tsc);
      var rest := ThrottledUp(st, rank, p, usage, tsc);
      forall i | 0 <= i < |rest| ensures rest[i] != p && rest[i] in Above(rank, n) {
        assert rest[i] in Above(rank, p);
      }
    }
  }

  /** Exactly the classes in `added` get a wakeup time; the others keep theirs. */
  ghost predicate WakeupsAdded(st: Store, st': Store, added: seq<Id>) {
    && st'.Keys == st.Keys
    && forall m :: m in st ==>
         if m in added then WakeupTime(st[m].body) == 0 && WakeupTime(st'[m].body) != 0
         else WakeupTime(st'[m].body) == WakeupTime(st[m].body)
  }

  /** Every class would be consistent if class `n` had stayed unblocked, and `n` itself is consistent. */
  ghost predicate OkIfUnblocked(st: Store, n: Id)
    requires n in st
  {
    NodeOk(st, n) &&
    forall m {:trigger NodeOk(st[n := st[n].(blocked := false)], m)} ::
      m in st && m != n ==> NodeOk(st[n := st[n].(blocked := false)], m)
  }

  lemma AccountStarts(st: Store, rank: map<Id, nat>, n: Id)
    requires Linked(st, rank) && Climbs(st, rank) && n in st && PathReady(st, rank, n)
    requires OkIfUnblocked(st, n) && st[n].parent.Some?
    ensures AccountReady(st, st[n].parent.value, n)
  {
    var p := st[n].parent.value;
    assert LinkOk(st, rank, n) && LinkOk(st, rank, p);
    KidsInStore(st, rank, p);
    assert NodeOk(st[n := st[n].(blocked := false)], p);
  }

  lemma OthersUndisturbed(st: Store, rank: map<Id, nat>, n: Id, p: Id, x: Node, m: Id)
    requires Linked(st, rank) && n in st && OkIfUnblocked(st, n) && st[n].parent == Some(p)
    requires p in st && !st[p].blocked && m in st && m != p
    ensures var st' := st[p := x]; NodeOk(st'[p := x.(blocked := false)], m)
  {
    var lit := st[p := x][p := x.(blocked := false)];
    if m == n {
      assert LinkOk(st, rank, p);
      assert st[p].parent != Some(n) by {
        assert LinkOk(st, rank, n);
      }
      NotMyKid(st, rank, n, p);
      NodeFrameExcept(st, lit, n, p);
    } else {
      NotMyKid(st, rank, m, n);
      NodeFrameExcept(st[n := st[n].(blocked := false)], lit, m, n);
    }
  }

  /** Once class `p` has accounted for `n`, only the parent of `p` may still have to learn that `p` is blocked. */
  lemma AccountMovesUp(st: Store, rank: map<Id, nat>, n: Id, p: Id, x: Node)
    requires Linked(st, rank) && n in st && OkIfUnblocked(st, n) && st[n].parent == Some(p)
    requires p in st && !st[p].blocked && NodeOk(st[p := x], p)
    ensures OkIfUnblocked(st[p := x], p)
  {
    forall m | m in st && m != p ensures NodeOk(st[p := x][p := x.(blocked := false)], m) {
      OthersUndisturbed(st, rank, n, p, x, m);
    }
  }

  lemma RootConsistent(st: Store, rank: map<Id, nat>, n: Id)
    requires Linked(st, rank) && n in st && OkIfUnblocked(st, n) && st[n].parent.None?
    ensures AllOk(st)
  {
    forall m | m in st && m != n ensures NodeOk(st, m) {
      assert LinkOk(st, rank, m);
      NodeFrame(st[n := st[n].(blocked := false)], st, m);
    }
  }

  lemma TreeShape(st: Store, rank: map<Id, nat>, p: Id, x: Node)
    requires Linked(st, rank) && p in st && KeepsTree(st, p, x)
    ensures SameShape(st, st[p := x]) && Linked(st[p := x], rank)
  {
    forall m | m in st ensures SameLinks(st[m], st[p := x][m]) {
      if m != p {
        assert st[p := x][m] == st[m];
      }
    }
    ShapeKeepsLinks(st, st[p := x], rank);
  }

  lemma WakeupsChain(a: Store, b: Store, c: Store, p: Id, on: bool, rest: seq<Id>)
    requires p in a && p !in rest && a.Keys == b.Keys && (forall m :: m in a && m != p ==> b[m] == a[m])
    requires WakeupTime(a[p].body) == 0 && (WakeupTime(b[p].body) != 0 <==> on)
    requires WakeupsAdded(b, c, rest)
    ensures WakeupsAdded(a, c, (if on then [p] else []) + rest)
  {
  }

  /**
   Accounting restores consistency of the whole tree: started at a leaf that may just have become
   blocked, on a path of unblocked classes that picked it, it leaves every class consistent, unblocks no
   class, keeps the hierarchy, and sets a wakeup time for exactly the classes it puts on the wakeup queue.
   */
  lemma {:induction false} FinishUpSound(st: Store, rank: map<Id, nat>, n: Id, usage: Usage, tsc: nat)
    requires Linked(st, rank) && Climbs(st, rank) && n in st && PathReady(st, rank, n) && AllInOrder(st, tsc) && tsc > 0
    requires OkIfUnblocked(st, n)
    ensures var st' := FinishUp(st, rank, n, usage, tsc);
      && AllOk(st') && SameShape(st, st') && Linked(st', rank) && OnlyBlocks(st, st') && AllInOrder(st', tsc)
      && WakeupsAdded(st, st', ThrottledUp(st, rank, n, usage, tsc))
    decreases Above(rank, n)
  {
    if st[n].parent.None? {
      RootConsistent(st, rank, n);
    } else {
      var p := st[n].parent.value;
      AccountStarts(st, rank, n);
      assert InOrder(st[p].body, tsc);
      AccountNodeSound(st, p, n, usage, tsc);
      var x := AccountNode(st, p, n, usage, tsc);
      AccountMovesUp(st, rank, n, p, x);
      var st1 := st[p := x];
      AboveShrinks(rank, n, p);
      ClimbsFrame(st, rank, p, x);
      PathFrame(st, st1, rank, p);
      AccountInOrder(st, p, n, usage, tsc);
      TreeShape(st, rank, p, x);
      UpdateOnlyBlocks(st, p, x);
      FinishUpSound(st1, rank, p, usage, tsc);
      var st2 := FinishUp(st1, rank, p, usage, tsc);
      assert FinishUp(st, rank, n, usage, tsc) == st2;
      ShapeTransitive(st, st1, st2);
      ThrottledFrame(st, st1, rank, p, usage, tsc);
      ThrottledAbove(st, rank, p, usage, tsc);
      var rest := ThrottledUp(st, rank, p, usage, tsc);
      assert p !in rest;
      WakeupsChain(st, st1, st2, p, Throttles(st[p].body, usage, tsc), rest);
    }
  }
}

/** `AddChild` and `RemoveChild` of every kind of class (bess/core/traffic_class.cc). */
module TcTree {
  import opened Wrappers
  import opened Stride
  import opened TokenBucket
  import opened TrafficClass
  import opened TcUnblock
  import opened TcBlock

  // ----- AddChild -----

  /** The argument of `AddChild` besides the child. */
  datatype Link = ByPriority(priority: nat) | ByShare(share: int) | Plain

  predicate Fits(b: Body, link: Link) {
    match b
    case Priority(_, _) => link.ByPriority?
    case WeightedFair(_, _, _) => link.ByShare?
    case RoundRobin(_, _, _) => link.Plain?
    case RateLimit(_, _, _) => link.Plain?
    case Leaf(_, _) => false
  }

  predicate HasPriority(children: seq<Prio>, priority: nat) {
    exists i :: 0 <= i < |children| && children[i].priority == priority
  }

  /** `AddChild` returns false. */
  predicate Refused(st: Store, n: Id, c: Id, link: Link)
    requires n in st && c in st && Fits(st[n].body, link)
  {
    || st[c].parent.Some?
    || (match st[n].body
        case Priority(children, _) => HasPriority(children, link.priority)
        case WeightedFair(_, _, _) => link.share == 0
        case RoundRobin(_, _, _) => false
        case RateLimit(_, _, child) => child.Some?)
  }

  /** `InsertSorted`: from the back, past every greater priority number. */
  function InsertPrio(children: seq<Prio>, d: Prio): (r: seq<Prio>)
    ensures |r| == |children| + 1
  {
    if children == [] || children[|children| - 1].priority <= d.priority then children + [d]
    else InsertPrio(children[..|children| - 1], d) + [children[|children| - 1]]
  }

  function AddedBody(st: Store, n: Id, c: Id, link: Link): Body
    requires n in st && c in st && Fits(st[n].body, link) && !Refused(st, n, c, link)
  {
    match st[n].body
    case Priority(children, first) => Priority(InsertPrio(children, Prio(link.priority, c)), first)
    case WeightedFair(resource, runnable, sleeping) =>
      var e := Entry(c, StrideOf(link.share), NextPass(runnable));
      if st[c].blocked then WeightedFair(resource, runnable, sleeping + [e])
      else WeightedFair(resource, Push(runnable, e), sleeping)
    case RoundRobin(next, ready, waiting) =>
      if st[c].blocked then RoundRobin(next, ready, waiting + [c]) else RoundRobin(next, ready + [c], waiting)
    case RateLimit(resource, bucket, _) => RateLimit(resource, bucket, Some(c))
  }

  /** The child is linked to its parent, but nobody above has been told. */
  function Attached(st: Store, n: Id, c: Id, link: Link): Store
    requires n in st && c in st && c != n && Fits(st[n].body, link) && !Refused(st, n, c, link)
  {
    st[c := st[c].(parent := Some(n))][n := st[n].(body := AddedBody(st, n, c, link))]
  }

  /** A weighted-fair class does not tell anyone that it got a blocked child. */
  predicate AddsQuietly(st: Store, n: Id, c: Id)
    requires n in st && c in st
  {
    st[n].body.WeightedFair? && st[c].blocked
  }

  // ----- acyclicity -----

  /** `Root`. */
  ghost function RootOf(st: Store, rank: map<Id, nat>, n: Id): Id
    requires Climbs(st, rank) && n in st
    decreases Above(rank, n)
  {
    if st[n].parent.None? then n
    else
      AboveShrinks(rank, n, st[n].parent.value);
      RootOf(st, rank, st[n].parent.value)
  }

  /** Ranks that put the tree of root `c` below everything else. */
  ghost function Sunk(st: Store, rank: map<Id, nat>, c: Id): (r: map<Id, nat>)
    requires Climbs(st, rank) && c in st && c in rank
    ensures forall m :: m in r <==> m in st
  {
    map m | m in st :: SunkRank(st, rank, c, m)
  }

  ghost function SunkRank(st: Store, rank: map<Id, nat>, c: Id, m: Id): nat
    requires Climbs(st, rank) && c in rank && m in st
  {
    assert st[m].parent == st[m].parent;
    if RootOf(st, rank, m) == c then rank[m] else rank[m] + rank[c] + 1
  }

  lemma SunkLinked(st: Store, rank: map<Id, nat>, c: Id)
    requires Linked(st, rank) && Climbs(st, rank) && c in st && c in rank
    ensures Linked(st, Sunk(st, rank, c))
  {
    var r := Sunk(st, rank, c);
    forall m | m in st ensures LinkOk(st, r, m) {
      assert LinkOk(st, rank, m);
      if st[m].parent.Some? {
        assert RootOf(st, rank, m) == RootOf(st, rank, st[m].parent.value);
      }
    }
  }

  // ----- AddChild keeps the tree consistent -----

  lemma {:induction false} InsertPrioIds(children: seq<Prio>, d: Prio)
    ensures multiset(Ids(InsertPrio(children, d))) == multiset(Ids(children)) + multiset{d.c}
  {
    if children == [] || children[|children| - 1].priority <= d.priority {
      assert Ids(children + [d]) == Ids(children) + [d.c];
    } else {
      var front, last := children[..|children| - 1], children[|children| - 1];
      InsertPrioIds(front, d);
      assert Ids(InsertPrio(front, d) + [last]) == Ids(InsertPrio(front, d)) + [last.c];
      assert Ids(children) == Ids(front) + [last.c];
    }
  }

  /** Every old child is still there. */
  lemma {:induction false} InsertPrioKeeps(children: seq<Prio>, d: Prio, i: nat) returns (j: nat)
    requires i < |children|
    ensures j < |InsertPrio(children, d)| && InsertPrio(children, d)[j] == children[i]
  {
    if children == [] || children[|children| - 1].priority <= d.priority {
      j := i;
    } else if i == |children| - 1 {
      j := i + 1;
    } else {
      j := InsertPrioKeeps(children[..|children| - 1], d, i);
    }
  }

  lemma {:induction false} InsertPrioMember(children: seq<Prio>, d: Prio, i: nat)
    requires i < |InsertPrio(children, d)|
    ensures InsertPrio(children, d)[i] == d || InsertPrio(children, d)[i] in children
  {
    if children == [] || children[|children| - 1].priority <= d.priority {
    } else if i < |children| {
      InsertPrioMember(children[..|children| - 1], d, i);
    }
  }

  lemma {:induction false} InsertPrioSorted(children: seq<Prio>, d: Prio)
    requires PrioSorted(children) && !HasPriority(children, d.priority)
    ensures PrioSorted(InsertPrio(children, d))
  {
    if children == [] || children[|children| - 1].priority <= d.priority {
    } else {
      var front := children[..|children| - 1];
      assert !HasPriority(front, d.priority);
      InsertPrioSorted(front, d);
      var r := InsertPrio(front, d);
      forall i | 0 <= i < |r| ensures r[i].priority < children[|children| - 1].priority {
        InsertPrioMember(front, d, i);
      }
    }
  }

  lemma AddedKidsWf(runnable: seq<Entry>, sleeping: seq<Entry>, e: Entry)
    ensures Bag(Push(runnable, e)) + Bag(sleeping) == (Bag(runnable) + Bag(sleeping)) + multiset{e.c}
    ensures Bag(runnable) + Bag(sleeping + [e]) == (Bag(runnable) + Bag(sleeping)) + multiset{e.c}
  {
    PushBag(runnable, e);
    BagSnoc(sleeping, e);
  }

  lemma AddedKidsRr(ready: seq<Id>, waiting: seq<Id>, c: Id)
    ensures multiset(ready + [c]) + multiset(waiting) == (multiset(ready) + multiset(waiting)) + multiset{c}
    ensures multiset(ready) + multiset(waiting + [c]) == (multiset(ready) + multiset(waiting)) + multiset{c}
  {
  }

  lemma AddedKids(st: Store, n: Id, c: Id, link: Link)
    requires n in st && c in st && Fits(st[n].body, link) && !Refused(st, n, c, link)
    ensures Kids(AddedBody(st, n, c, link)) == Kids(st[n].body) + multiset{c}
  {
    match st[n].body
    case Priority(children, _) => InsertPrioIds(children, Prio(link.priority, c));
    case WeightedFair(_, runnable, sleeping) =>
      AddedKidsWf(runnable, sleeping, Entry(c, StrideOf(link.share), NextPass(runnable)));
    case RoundRobin(_, ready, waiting) => AddedKidsRr(ready, waiting, c);
    case RateLimit(_, _, _) =>
  }

  /** `st'` is the hierarchy of `st` with `c` hung below `n`. */
  ghost predicate Grown(st: Store, st': Store, n: Id, c: Id)
    requires n in st && c in st
  {
    && st'.Keys == st.Keys
    && (forall m {:trigger st'[m].parent} :: m in st ==> st'[m].parent == if m == c then Some(n) else st[m].parent)
    && (forall m {:trigger PolicyOf(st'[m].body)} :: m in st ==> PolicyOf(st'[m].body) == PolicyOf(st[m].body))
    && (forall m {:trigger Kids(st'[m].body)} :: m in st && m != n ==> Kids(st'[m].body) == Kids(st[m].body))
    && Kids(st'[n].body) == Kids(st[n].body) + multiset{c}
  }

  /** `st'` differs from `st` in the parent of `c` and the body of `n`. */
  ghost predicate Relinked(st: Store, st': Store, n: Id, c: Id, parent: Option<Id>, x: Body)
    requires n in st && c in st
  {
    st' == st[c := st[c].(parent := parent)][n := st[n].(body := x)]
  }

  lemma RelinkedGrown(st: Store, st': Store, n: Id, c: Id, x: Body)
    requires n in st && c in st && c != n && Relinked(st, st', n, c, Some(n), x)
    requires Kids(x) == Kids(st[n].body) + multiset{c} && PolicyOf(x) == PolicyOf(st[n].body)
    ensures Grown(st, st', n, c)
  {
    RelinkedFields(st, st', n, c, Some(n), x);
  }

  lemma RelinkedFields(st: Store, st': Store, n: Id, c: Id, parent: Option<Id>, x: Body)
    requires n in st && c in st && c != n && Relinked(st, st', n, c, parent, x)
    ensures st'.Keys == st.Keys && st'[n].body == x
    ensures forall m {:trigger st'[m].body} :: m in st && m != n ==> st'[m].body == st[m].body
    ensures forall m {:trigger st'[m].parent} :: m in st ==> st'[m].parent == if m == c then parent else st[m].parent
  {
  }

  lemma AddedPolicy(st: Store, n: Id, c: Id, link: Link)
    requires n in st && c in st && Fits(st[n].body, link) && !Refused(st, n, c, link)
    ensures PolicyOf(AddedBody(st, n, c, link)) == PolicyOf(st[n].body)
    ensures WakeupTime(AddedBody(st, n, c, link)) == WakeupTime(st[n].body)
  {
  }

  lemma AttachedGrown(st: Store, n: Id, c: Id, link: Link)
    requires n in st && c in st && c != n && Fits(st[n].body, link) && !Refused(st, n, c, link)
    ensures Grown(st, Attached(st, n, c, link), n, c)
  {
    AddedKids(st, n, c, link);
    AddedPolicy(st, n, c, link);
    RelinkedGrown(st, Attached(st, n, c, link), n, c, AddedBody(st, n, c, link));
  }

  lemma GrownLink(st: Store, st': Store, rank: map<Id, nat>, n: Id, c: Id, m: Id)
    requires Linked(st, rank) && n in st && c in st && c != n && st[c].parent.None? && Grown(st, st', n, c)
    requires n in rank && c in rank && rank[c] < rank[n] && m in st
    ensures LinkOk(st', rank, m)
  {
    assert LinkOk(st, rank, m) && LinkOk(st, rank, n);
    NotMyKid(st, rank, m, c);
    forall d | d in Kids(st'[m].body)
      ensures Kids(st'[m].body)[d] == 1 && d in st' && st'[d].parent == Some(m)
    {
      if m != n || d != c {
        assert d in Kids(st[m].body);
      }
    }
  }

  /** A tree hung below a class of higher rank leaves a tree. */
  lemma GrownLinked(st: Store, st': Store, rank: map<Id, nat>, n: Id, c: Id)
    requires Linked(st, rank) && n in st && c in st && c != n && st[c].parent.None? && Grown(st, st', n, c)
    requires n in rank && c in rank && rank[c] < rank[n]
    ensures Linked(st', rank)
  {
    forall m | m in st' ensures LinkOk(st', rank, m) {
      GrownLink(st, st', rank, n, c, m);
    }
  }

  lemma RelinkedOkExcept(st: Store, st': Store, n: Id, c: Id, parent: Option<Id>, x: Body)
    requires AllOk(st) && n in st && c in st && c != n && Relinked(st, st', n, c, parent, x)
    ensures OkExcept(st', n)
  {
    assert forall d :: IsBlocked(st', d) == IsBlocked(st, d) && IsRunnable(st', d) == IsRunnable(st, d);
    forall m | m in st' && m != n ensures NodeOk(st', m) {
      assert NodeOk(st, m);
      NodeFrame(st, st', m);
    }
  }

  lemma RelinkedInOrder(st: Store, st': Store, n: Id, c: Id, parent: Option<Id>, x: Body, now: nat)
    requires AllInOrder(st, now) && n in st && c in st && c != n && Relinked(st, st', n, c, parent, x) && InOrder(x, now)
    ensures AllInOrder(st', now)
  {
    forall m | m in st' ensures InOrder(st'[m].body, now) {
      if m != n {
        assert InOrder(st[m].body, now) && st'[m].body == st[m].body;
      }
    }
  }

  lemma AttachedOkExcept(st: Store, n: Id, c: Id, link: Link)
    requires AllOk(st) && n in st && c in st && c != n && Fits(st[n].body, link) && !Refused(st, n, c, link)
    ensures OkExcept(Attached(st, n, c, link), n)
  {
    RelinkedOkExcept(st, Attached(st, n, c, link), n, c, Some(n), AddedBody(st, n, c, link));
  }

  ghost predicate SameFlags(st: Store, st': Store) {
    forall c :: IsBlocked(st', c) == IsBlocked(st, c) && IsRunnable(st', c) == IsRunnable(st, c)
  }

  lemma PushRunnable(st: Store, q: seq<Entry>, e: Entry)
    requires EntriesRunnable(st, q) && IsRunnable(st, e.c)
    ensures EntriesRunnable(st, Push(q, e)) && Push(q, e) != []
  {
    forall i | 0 <= i < |Push(q, e)| ensures IsRunnable(st, Push(q, e)[i].c) {
      PushMember(q, e, i);
    }
  }

  /** The new parent is ready to be told, or nothing has changed for it. */
  lemma AttachedReady(st: Store, n: Id, c: Id, link: Link)
    requires AllOk(st) && n in st && c in st && c != n && Fits(st[n].body, link) && !Refused(st, n, c, link)
    ensures var st' := Attached(st, n, c, link);
      if AddsQuietly(st, n, c) then NodeOk(st', n) else UnblockReady(st', n)
  {
    var st' := Attached(st, n, c, link);
    assert NodeOk(st, n);
    assert SameFlags(st, st');
    match st[n].body
    case Priority(children, first) =>
      if !st[n].blocked {
        var j := InsertPrioKeeps(children, Prio(link.priority, c), first);
        assert IsRunnable(st', st'[n].body.children[j].c);
      }
    case WeightedFair(_, runnable, sleeping) =>
      var e := Entry(c, StrideOf(link.share), NextPass(runnable));
      if !st[c].blocked {
        PushRunnable(st, runnable, e);
      }
      assert EntriesRunnable(st, st'[n].body.runnable) && EntriesBlocked(st, st'[n].body.sleeping);
    case RoundRobin(_, _, _) =>
    case RateLimit(_, _, _) =>
  }

  lemma AttachedInOrder(st: Store, n: Id, c: Id, link: Link, now: nat)
    requires n in st && c in st && c != n && Fits(st[n].body, link) && !Refused(st, n, c, link) && AllInOrder(st, now)
    ensures AllInOrder(Attached(st, n, c, link), now)
  {
    var st' := Attached(st, n, c, link);
    assert InOrder(st[n].body, now) && InOrder(st[c].body, now);
    match st[n].body
    case Priority(children, _) => InsertPrioSorted(children, Prio(link.priority, c));
    case WeightedFair(_, runnable, _) => PushSorted(runnable, Entry(c, StrideOf(link.share), NextPass(runnable)));
    case RoundRobin(_, _, _) =>
    case RateLimit(_, _, _) =>
  }

  // ----- RemoveChild -----

  function IndexOf(ids: seq<Id>, c: Id): (i: nat)
    ensures i <= |ids| && (i < |ids| ==> ids[i] == c)
    ensures i == |ids| <==> c !in ids
    ensures forall j :: 0 <= j < i ==> ids[j] != c
  {
    if ids == [] || ids[0] == c then 0 else 1 + IndexOf(ids[1..], c)
  }

  function EntryIds(q: seq<Entry>): (ids: seq<Id>)
    ensures |ids| == |q|
    ensures forall i :: 0 <= i < |q| ==> ids[i] == q[i].c
  {
    seq(|q|, i requires 0 <= i < |q| => q[i].c)
  }

  /** The lists of class `n` without child `c`. */
  function RemovedBody(b: Body, c: Id): Body
    requires c in Kids(b)
  {
    match b
    case Priority(children, first) =>
      var i := IndexOf(Ids(children), c);
      Priority(Erase(children, i), if first > i then first - 1 else first)
    case WeightedFair(resource, runnable, sleeping) =>
      var i := IndexOf(EntryIds(sleeping), c);
      if i < |sleeping| then WeightedFair(resource, runnable, Erase(sleeping, i))
      else
        KidsOfWf(b, c);
        WeightedFair(resource, Erase(runnable, IndexOf(EntryIds(runnable), c)), sleeping)
    case RoundRobin(next, ready, waiting) =>
      var i := IndexOf(waiting, c);
      if i < |waiting| then RoundRobin(next, ready, Erase(waiting, i))
      else
        var k := IndexOf(ready, c);
        RoundRobin(AfterErase(next, k, |ready| - 1), Erase(ready, k), waiting)
    case RateLimit(resource, bucket, _) => RateLimit(resource, bucket, None)
    case Leaf(_, _) => b
  }

  lemma KidsOfWf(b: Body, c: Id)
    requires b.WeightedFair? && c in Kids(b)
    ensures c in EntryIds(b.runnable) || c in EntryIds(b.sleeping)
  {
    if c in Bag(b.runnable) {
      var i := BagFind(b.runnable, c);
      assert EntryIds(b.runnable)[i] == c;
    } else {
      var i := BagFind(b.sleeping, c);
      assert EntryIds(b.sleeping)[i] == c;
    }
  }

  /** A child taken from a blocked list leaves without further notice. */
  predicate RemovesQuietly(b: Body, c: Id) {
    (b.WeightedFair? && c in EntryIds(b.sleeping)) || (b.RoundRobin? && c in b.waiting)
  }

  /** The child is unlinked, but nobody above has been told. */
  function Detached(st: Store, n: Id, c: Id): Store
    requires n in st && c in st && c != n && c in Kids(st[n].body)
  {
    st[c := st[c].(parent := None)][n := st[n].(body := RemovedBody(st[n].body, c))]
  }

  lemma LeavesLeft(x: multiset<Id>, x': multiset<Id>, y: multiset<Id>, c: Id)
    requires x == x' + multiset{c}
    ensures (x' + y) + multiset{c} == x + y
  {
  }

  lemma LeavesRight(x: multiset<Id>, y: multiset<Id>, y': multiset<Id>, c: Id)
    requires y == y' + multiset{c}
    ensures (x + y') + multiset{c} == x + y
  {
  }

  lemma RemovedPrio(b: Body, c: Id)
    requires b.Priority? && c in Kids(b)
    ensures Kids(RemovedBody(b, c)) + multiset{c} == Kids(b)
  {
    var i := IndexOf(Ids(b.children), c);
    assert Ids(Erase(b.children, i)) == Erase(Ids(b.children), i);
    EraseMultiset(Ids(b.children), i);
  }

  lemma BagErased(q: seq<Entry>, i: nat)
    requires i < |q|
    ensures Bag(q) == Bag(Erase(q, i)) + multiset{q[i].c}
  {
    EraseBag(q, i);
  }

  lemma BagWithout(q: seq<Entry>, c: Id)
    requires c in EntryIds(q)
    ensures Bag(q) == Bag(Erase(q, IndexOf(EntryIds(q), c))) + multiset{c}
  {
    var i := IndexOf(EntryIds(q), c);
    assert q[i].c == c;
    BagErased(q, i);
  }

  lemma RemovedSleeper(b: Body, c: Id)
    requires b.WeightedFair? && c in Kids(b) && c in EntryIds(b.sleeping)
    ensures Kids(RemovedBody(b, c)) + multiset{c} == Kids(b)
  {
    var rest := Erase(b.sleeping, IndexOf(EntryIds(b.sleeping), c));
    BagWithout(b.sleeping, c);
    LeavesRight(Bag(b.runnable), Bag(b.sleeping), Bag(rest), c);
    assert RemovedBody(b, c) == WeightedFair(b.resource, b.runnable, rest);
  }

  lemma RemovedRunner(b: Body, c: Id)
    requires b.WeightedFair? && c in Kids(b) && c in EntryIds(b.runnable) && c !in EntryIds(b.sleeping)
    ensures Kids(RemovedBody(b, c)) + multiset{c} == Kids(b)
  {
    var rest := Erase(b.runnable, IndexOf(EntryIds(b.runnable), c));
    BagWithout(b.runnable, c);
    LeavesLeft(Bag(b.runnable), Bag(rest), Bag(b.sleeping), c);
    assert RemovedBody(b, c) == WeightedFair(b.resource, rest, b.sleeping);
  }

  lemma RemovedWaiting(b: Body, c: Id)
    requires b.RoundRobin? && c in b.waiting
    ensures Kids(RemovedBody(b, c)) + multiset{c} == Kids(b)
  {
    var i := IndexOf(b.waiting, c);
    var rest := Erase(b.waiting, i);
    assert RemovedBody(b, c) == RoundRobin(b.nextChild, b.ready, rest);
    EraseMultiset(b.waiting, i);
    LeavesRight(multiset(b.ready), multiset(b.waiting), multiset(rest), c);
  }

  lemma RemovedReady(b: Body, c: Id)
    requires b.RoundRobin? && c in b.ready && c !in b.waiting
    ensures Kids(RemovedBody(b, c)) + multiset{c} == Kids(b)
  {
    var k := IndexOf(b.ready, c);
    var rest := Erase(b.ready, k);
    assert RemovedBody(b, c) == RoundRobin(AfterErase(b.nextChild, k, |b.ready| - 1), rest, b.waiting);
    EraseMultiset(b.ready, k);
    LeavesLeft(multiset(b.ready), multiset(rest), multiset(b.waiting), c);
  }

  lemma RemovedKids(b: Body, c: Id)
    requires c in Kids(b)
    ensures Kids(RemovedBody(b, c)) + multiset{c} == Kids(b)
  {
    match b
    case Priority(_, _) => RemovedPrio(b, c);
    case WeightedFair(_, runnable, sleeping) =>
      KidsOfWf(b, c);
      if c in EntryIds(sleeping) {
        RemovedSleeper(b, c);
      } else {
        RemovedRunner(b, c);
      }
    case RoundRobin(_, ready, waiting) =>
      if c in waiting {
        RemovedWaiting(b, c);
      } else {
        assert c in ready;
        RemovedReady(b, c);
      }
    case RateLimit(_, _, _) =>
    case Leaf(_, _) =>
  }

  /** `st'` is the hierarchy of `st` without the link from `n` to `c`. */
  ghost predicate Pruned(st: Store, st': Store, n: Id, c: Id)
    requires n in st && c in st
  {
    && st'.Keys == st.Keys
    && (forall m {:trigger st'[m].parent} :: m in st ==> st'[m].parent == if m == c then None else st[m].parent)
    && (forall m {:trigger PolicyOf(st'[m].body)} :: m in st ==> PolicyOf(st'[m].body) == PolicyOf(st[m].body))
    && (forall m {:trigger Kids(st'[m].body)} :: m in st && m != n ==> Kids(st'[m].body) == Kids(st[m].body))
    && Kids(st'[n].body) + multiset{c} == Kids(st[n].body)
  }

  lemma RelinkedPruned(st: Store, st': Store, n: Id, c: Id, x: Body)
    requires n in st && c in st && c != n && Relinked(st, st', n, c, None, x)
    requires Kids(x) + multiset{c} == Kids(st[n].body) && PolicyOf(x) == PolicyOf(st[n].body)
    ensures Pruned(st, st', n, c)
  {
  }

  lemma RemovedPolicy(b: Body, c: Id)
    requires c in Kids(b)
    ensures PolicyOf(RemovedBody(b, c)) == PolicyOf(b) && WakeupTime(RemovedBody(b, c)) == WakeupTime(b)
  {
  }

  lemma DetachedPruned(st: Store, n: Id, c: Id)
    requires n in st && c in st && c != n && c in Kids(st[n].body)
    ensures Pruned(st, Detached(st, n, c), n, c)
  {
    RemovedKids(st[n].body, c);
    RemovedPolicy(st[n].body, c);
    RelinkedPruned(st, Detached(st, n, c), n, c, RemovedBody(st[n].body, c));
  }

  lemma PrunedLink(st: Store, st': Store, rank: map<Id, nat>, n: Id, c: Id, m: Id)
    requires Linked(st, rank) && n in st && c in st && c != n && c in Kids(st[n].body) && Pruned(st, st', n, c) && m in st
    ensures LinkOk(st', rank, m)
  {
    assert LinkOk(st, rank, m) && LinkOk(st, rank, n);
    var before, after := Kids(st[n].body), Kids(st'[n].body);
    assert before[c] == 1 && after[c] == 0;
    assert forall d :: before[d] == after[d] + multiset{c}[d];
    if m != n {
      NotMyKid(st, rank, m, c);
    }
    forall d | d in Kids(st'[m].body)
      ensures Kids(st'[m].body)[d] == 1 && d in st' && st'[d].parent == Some(m)
    {
      assert d in Kids(st[m].body);
    }
  }

  lemma PrunedLinked(st: Store, st': Store, rank: map<Id, nat>, n: Id, c: Id)
    requires Linked(st, rank) && n in st && c in st && c != n && c in Kids(st[n].body) && Pruned(st, st', n, c)
    ensures Linked(st', rank)
  {
    forall m | m in st' ensures LinkOk(st', rank, m) {
      PrunedLink(st, st', rank, n, c, m);
    }
  }

  lemma DetachedOkExcept(st: Store, n: Id, c: Id)
    requires AllOk(st) && n in st && c in st && c != n && c in Kids(st[n].body)
    ensures OkExcept(Detached(st, n, c), n)
  {
    RelinkedOkExcept(st, Detached(st, n, c), n, c, None, RemovedBody(st[n].body, c));
  }

  lemma EraseEntries(st: Store, q: seq<Entry>, k: nat)
    requires k < |q|
    ensures EntriesRunnable(st, q) ==> EntriesRunnable(st, Erase(q, k)) && AtMostOneBlocked(st, Erase(q, k))
    ensures EntriesBlocked(st, q) ==> EntriesBlocked(st, Erase(q, k))
  {
    assert forall j :: 0 <= j < |Erase(q, k)| ==> Erase(q, k)[j] == q[if j < k then j else j + 1];
  }

  lemma EraseIds(st: Store, ids: seq<Id>, k: nat)
    requires k < |ids|
    ensures AllRunnable(st, ids) ==> AllRunnable(st, Erase(ids, k))
    ensures AllBlocked(st, ids) ==> AllBlocked(st, Erase(ids, k))
  {
    assert forall j :: 0 <= j < |Erase(ids, k)| ==> Erase(ids, k)[j] == ids[if j < k then j else j + 1];
  }

  lemma ErasePrefix(st: Store, children: seq<Prio>, first: nat, i: nat)
    requires i < |children| && first <= |children| && PrefixBlocked(st, children, first)
    ensures var first' := if first > i then first - 1 else first;
      first' <= |Erase(children, i)| && PrefixBlocked(st, Erase(children, i), first')
  {
    assert forall j :: 0 <= j < |Erase(children, i)| ==> Erase(children, i)[j] == children[if j < i then j else j + 1];
  }

  /** The old parent is ready to be told, or nothing has changed for it. */
  lemma DetachedReady(st: Store, n: Id, c: Id)
    requires AllOk(st) && n in st && c in st && c != n && c in Kids(st[n].body)
    ensures var st' := Detached(st, n, c);
      if RemovesQuietly(st[n].body, c) then NodeOk(st', n) else BlockReady(st', n)
  {
    var st' := Detached(st, n, c);
    var b := st[n].body;
    assert NodeOk(st, n);
    assert SameFlags(st, st');
    match b
    case Priority(children, first) =>
      ErasePrefix(st', children, first, IndexOf(Ids(children), c));
    case WeightedFair(_, runnable, sleeping) =>
      KidsOfWf(b, c);
      assert EntriesRunnable(st', runnable) && EntriesBlocked(st', sleeping);
      var i := IndexOf(EntryIds(sleeping), c);
      if i < |sleeping| {
        EraseEntries(st', sleeping, i);
      } else {
        EraseEntries(st', runnable, IndexOf(EntryIds(runnable), c));
      }
    case RoundRobin(_, ready, waiting) =>
      assert AllRunnable(st', ready) && AllBlocked(st', waiting);
      var i := IndexOf(waiting, c);
      if i < |waiting| {
        EraseIds(st', waiting, i);
      } else {
        EraseIds(st', ready, IndexOf(ready, c));
      }
    case RateLimit(_, _, _) =>
    case Leaf(_, _) =>
  }

  lemma ErasePrioSorted(children: seq<Prio>, i: nat)
    requires PrioSorted(children) && i < |children|
    ensures PrioSorted(Erase(children, i))
  {
    assert forall j :: 0 <= j < |Erase(children, i)| ==> Erase(children, i)[j] == children[if j < i then j else j + 1];
  }

  lemma RemovedFairInOrder(b: Body, c: Id)
    requires b.WeightedFair? && c in Kids(b) && Sorted(b.runnable)
    ensures RemovedBody(b, c).WeightedFair? && Sorted(RemovedBody(b, c).runnable)
  {
    KidsOfWf(b, c);
    if IndexOf(EntryIds(b.sleeping), c) == |b.sleeping| {
      EraseSorted(b.runnable, IndexOf(EntryIds(b.runnable), c));
    }
  }

  lemma RemovedInOrder(b: Body, c: Id, now: nat)
    requires c in Kids(b) && InOrder(b, now)
    ensures InOrder(RemovedBody(b, c), now)
  {
    match b
    case Priority(children, _) => ErasePrioSorted(children, IndexOf(Ids(children), c));
    case WeightedFair(_, _, _) => RemovedFairInOrder(b, c);
    case RoundRobin(_, _, _) =>
    case RateLimit(_, _, _) =>
    case Leaf(_, _) =>
  }

  lemma DetachedInOrder(st: Store, n: Id, c: Id, now: nat)
    requires n in st && c in st && c != n && c in Kids(st[n].body) && AllInOrder(st, now)
    ensures AllInOrder(Detached(st, n, c), now)
  {
    assert InOrder(st[n].body, now);
    RemovedInOrder(st[n].body, c, now);
    RelinkedInOrder(st, Detached(st, n, c), n, c, None, RemovedBody(st[n].body, c), now);
  }

  // ----- the two operations -----

  lemma AttachedClimbs(st: Store, rank: map<Id, nat>, n: Id, c: Id, link: Link)
    requires Climbs(st, rank) && n in st && c in st && c != n && Fits(st[n].body, link) && !Refused(st, n, c, link)
    requires n in rank && c in rank && rank[c] < rank[n]
    ensures Climbs(Attached(st, n, c, link), rank)
  {
    var st' := Attached(st, n, c, link);
    forall m | m in st'
      ensures m in rank &&
        (st'[m].parent.Some? ==>
           st'[m].parent.value in st' && st'[m].parent.value in rank && rank[m] < rank[st'[m].parent.value])
    {
      assert st[m].parent == st[m].parent;
    }
  }

  /** `AddChild`, when it is not refused. */
  ghost function AddChildTo(st: Store, rank: map<Id, nat>, n: Id, c: Id, link: Link, tsc: nat): Store
    requires Climbs(st, rank) && n in st && c in st && c != n && Fits(st[n].body, link) && !Refused(st, n, c, link)
    requires n in rank && c in rank && rank[c] < rank[n]
  {
    AttachedClimbs(st, rank, n, c, link);
    if AddsQuietly(st, n, c) then Attached(st, n, c, link) else UnblockUp(Attached(st, n, c, link), rank, n, tsc)
  }

  lemma AttachedSame(st: Store, n: Id, c: Id, link: Link)
    requires n in st && c in st && c != n && Fits(st[n].body, link) && !Refused(st, n, c, link)
    ensures SameWakeups(st, Attached(st, n, c, link)) && OnlyUnblocks(st, Attached(st, n, c, link))
  {
    AddedPolicy(st, n, c, link);
  }

  lemma GrownThenSame(st: Store, mid: Store, st': Store, n: Id, c: Id)
    requires n in st && c in st && Grown(st, mid, n, c) && SameShape(mid, st')
    ensures Grown(st, st', n, c)
  {
    forall m | m in st ensures SameLinks(mid[m], st'[m]) {
    }
  }

  /**
   A successful `AddChild` hangs the child below the class, changes nothing else in the hierarchy, blocks no
   class, and leaves every class consistent.
   */
  lemma AddChildSound(st: Store, rank: map<Id, nat>, n: Id, c: Id, link: Link, tsc: nat)
    requires Linked(st, rank) && Climbs(st, rank) && AllOk(st)
    requires n in st && c in st && c != n && Fits(st[n].body, link) && !Refused(st, n, c, link)
    requires n in rank && c in rank && rank[c] < rank[n]
    ensures var st' := AddChildTo(st, rank, n, c, link, tsc);
      Grown(st, st', n, c) && Linked(st', rank) && AllOk(st') && OnlyUnblocks(st, st') && SameWakeups(st, st')
  {
    var st1 := Attached(st, n, c, link);
    AttachedClimbs(st, rank, n, c, link);
    AttachedGrown(st, n, c, link);
    GrownLinked(st, st1, rank, n, c);
    AttachedOkExcept(st, n, c, link);
    AttachedReady(st, n, c, link);
    AttachedSame(st, n, c, link);
    if !AddsQuietly(st, n, c) {
      UnblockUpSound(st1, rank, n, tsc);
      GrownThenSame(st, st1, UnblockUp(st1, rank, n, tsc), n, c);
    }
  }

  lemma AddChildInOrder(st: Store, rank: map<Id, nat>, n: Id, c: Id, link: Link, tsc: nat)
    requires Climbs(st, rank) && n in st && c in st && c != n && Fits(st[n].body, link) && !Refused(st, n, c, link)
    requires n in rank && c in rank && rank[c] < rank[n] && AllInOrder(st, tsc)
    ensures AllInOrder(AddChildTo(st, rank, n, c, link, tsc), tsc)
  {
    AttachedInOrder(st, n, c, link, tsc);
    AttachedClimbs(st, rank, n, c, link);
    if !AddsQuietly(st, n, c) {
      UnblockUpInOrder(Attached(st, n, c, link), rank, n, tsc, tsc);
    }
  }

  lemma DetachedClimbs(st: Store, rank: map<Id, nat>, n: Id, c: Id)
    requires Climbs(st, rank) && n in st && c in st && c != n && c in Kids(st[n].body)
    ensures Climbs(Detached(st, n, c), rank)
  {
    var st' := Detached(st, n, c);
    forall m | m in st'
      ensures m in rank &&
        (st'[m].parent.Some? ==>
           st'[m].parent.value in st' && st'[m].parent.value in rank && rank[m] < rank[st'[m].parent.value])
    {
      assert st[m].parent == st[m].parent;
    }
  }

  /** `RemoveChild`, when `c` is a child of `n`. */
  ghost function RemoveChildFrom(st: Store, rank: map<Id, nat>, n: Id, c: Id): Store
    requires Climbs(st, rank) && n in st && c in st && c != n && c in Kids(st[n].body)
  {
    DetachedClimbs(st, rank, n, c);
    if RemovesQuietly(st[n].body, c) then Detached(st, n, c) else BlockUp(Detached(st, n, c), rank, n)
  }

  lemma DetachedSame(st: Store, n: Id, c: Id)
    requires n in st && c in st && c != n && c in Kids(st[n].body)
    ensures SameWakeups(st, Detached(st, n, c)) && OnlyBlocks(st, Detached(st, n, c))
  {
    RemovedPolicy(st[n].body, c);
  }

  lemma PrunedThenSame(st: Store, mid: Store, st': Store, n: Id, c: Id)
    requires n in st && c in st && Pruned(st, mid, n, c) && SameShape(mid, st')
    ensures Pruned(st, st', n, c)
  {
    forall m | m in st ensures SameLinks(mid[m], st'[m]) {
    }
  }

  /**
   A successful `RemoveChild` unlinks the child, changes nothing else in the hierarchy, unblocks no class,
   and leaves every class consistent.
   */
  lemma RemoveChildSound(st: Store, rank: map<Id, nat>, n: Id, c: Id)
    requires Linked(st, rank) && Climbs(st, rank) && AllOk(st)
    requires n in st && c in st && c != n && c in Kids(st[n].body)
    ensures var st' := RemoveChildFrom(st, rank, n, c);
      Pruned(st, st', n, c) && Linked(st', rank) && AllOk(st') && OnlyBlocks(st, st') && SameWakeups(st, st')
  {
    var st1 := Detached(st, n, c);
    DetachedClimbs(st, rank, n, c);
    DetachedPruned(st, n, c);
    assert LinkOk(st, rank, n);
    PrunedLinked(st, st1, rank, n, c);
    DetachedOkExcept(st, n, c);
    DetachedReady(st, n, c);
    DetachedSame(st, n, c);
    if !RemovesQuietly(st[n].body, c) {
      BlockUpSound(st1, rank, n);
      PrunedThenSame(st, st1, BlockUp(st1, rank, n), n, c);
    }
  }

  lemma RemoveChildInOrder(st: Store, rank: map<Id, nat>, n: Id, c: Id, now: nat)
    requires Climbs(st, rank) && n in st && c in st && c != n && c in Kids(st[n].body) && n in rank && AllInOrder(st, now)
    ensures AllInOrder(RemoveChildFrom(st, rank, n, c), now)
  {
    DetachedInOrder(st, n, c, now);
    DetachedClimbs(st, rank, n, c);
    if !RemovesQuietly(st[n].body, c) {
      BlockUpInOrder(Detached(st, n, c), rank, n, now);
    }
  }

  /** The ranks of `Sunk` put `c` below the classes of every other tree, and below no class of its own. */
  lemma SunkBelow(st: Store, rank: map<Id, nat>, n: Id, c: Id)
    requires Linked(st, rank) && Climbs(st, rank) && n in st && c in st && c in rank && st[c].parent.None?
    ensures Sunk(st, rank, c)[c] < Sunk(st, rank, c)[n] <==> RootOf(st, rank, n) != c
  {
    assert LinkOk(st, rank, n);
    RootHighest(st, rank, n);
  }

  /** The root does not depend on the ranks. */
  lemma {:induction false} RootUnique(st: Store, rank: map<Id, nat>, other: map<Id, nat>, n: Id)
    requires Climbs(st, rank) && Climbs(st, other) && n in st && n in rank && n in other
    ensures RootOf(st, rank, n) == RootOf(st, other, n)
    decreases Above(rank, n)
  {
    if st[n].parent.Some? {
      AboveShrinks(rank, n, st[n].parent.value);
      AboveShrinks(other, n, st[n].parent.value);
      RootUnique(st, rank, other, st[n].parent.value);
    }
  }

  /** The tree of root `c` fits below class `n` under these ranks: no cycle arises. */
  ghost predicate FitsBelow(st: Store, rank: map<Id, nat>, n: Id, c: Id) {
    Linked(st, rank) && Climbs(st, rank) && n in rank && c in rank && rank[c] < rank[n]
  }

  /** A root can be hung below a class, under some ranks, exactly when it is not the root above that class. */
  lemma AttachableIff(st: Store, rank: map<Id, nat>, n: Id, c: Id)
    requires Linked(st, rank) && Climbs(st, rank) && n in st && c in st && st[c].parent.None?
    ensures (exists r :: FitsBelow(st, r, n, c)) <==> RootOf(st, rank, n) != c
  {
    assert LinkOk(st, rank, n) && LinkOk(st, rank, c);
    if RootOf(st, rank, n) != c {
      SunkBelow(st, rank, n, c);
      SunkLinked(st, rank, c);
      LinkedClimbs(st, Sunk(st, rank, c));
      assert FitsBelow(st, Sunk(st, rank, c), n, c);
    } else if r :| FitsBelow(st, r, n, c) {
      RootUnique(st, rank, r, n);
      RootHighest(st, r, n);
      assert false;
    }
  }

  lemma {:induction false} RootHighest(st: Store, rank: map<Id, nat>, n: Id)
    requires Climbs(st, rank) && n in st && n in rank
    ensures var r := RootOf(st, rank, n); r in st && r in rank && rank[n] <= rank[r] && st[r].parent.None?
    decreases Above(rank, n)
  {
    if st[n].parent.Some? {
      AboveShrinks(rank, n, st[n].parent.value);
      RootHighest(st, rank, st[n].parent.value);
    }
  }

  // ----- creating and deleting classes -----

  /** A class as `CreateTrafficClass` makes it: no children, not throttled, blocked unless it is a leaf. */
  predicate Fresh(b: Body) {
    match b
    case Priority(children, first) => children == [] && first == 0
    case WeightedFair(_, runnable, sleeping) => runnable == [] && sleeping == []
    case RoundRobin(next, ready, waiting) => next == 0 && ready == [] && waiting == []
    case RateLimit(_, bucket, child) => child.None? && bucket.tokens == 0 && bucket.lastTsc == 0 && bucket.wakeup == 0
    case Leaf(waitCycles, wakeup) => waitCycles == INITIAL_WAIT && wakeup == 0
  }

  function Created(st: Store, n: Id, b: Body): Store {
    st[n := Node(None, !b.Leaf?, b)]
  }

  lemma CreatedElsewhere(st: Store, rank: map<Id, nat>, n: Id, b: Body, now: nat, m: Id)
    requires Linked(st, rank) && AllOk(st) && AllInOrder(st, now) && n !in st && m in st && Fresh(b)
    ensures var st' := Created(st, n, b);
      LinkOk(st', rank[n := 0], m) && NodeOk(st', m) && InOrder(st'[m].body, now)
  {
    var st' := Created(st, n, b);
    assert LinkOk(st, rank, m) && InOrder(st[m].body, now);
    assert forall c :: c in Kids(st[m].body) ==> c in st && st'[c] == st[c];
    CreatedFrame(st, st', m);
  }

  lemma CreatedFrame(st: Store, st': Store, m: Id)
    requires AllOk(st) && m in st && m in st' && st'[m] == st[m]
    requires forall c :: c in Kids(st[m].body) ==> c in st && c in st' && st'[c] == st[c]
    ensures NodeOk(st', m)
  {
    assert NodeOk(st, m);
    NodeFrame(st, st', m);
  }

  lemma CreatedSound(st: Store, rank: map<Id, nat>, n: Id, b: Body, now: nat)
    requires Linked(st, rank) && AllOk(st) && AllInOrder(st, now) && n !in st && Fresh(b)
    ensures var st' := Created(st, n, b);
      Linked(st', rank[n := 0]) && AllOk(st') && AllInOrder(st', now)
    ensures var st' := Created(st, n, b);
      && st'.Keys == st.Keys + {n} && st'[n] == Node(None, !b.Leaf?, b)
      && forall m :: m in st ==> st'[m] == st[m]
  {
    var st', rank' := Created(st, n, b), rank[n := 0];
    assert Kids(b) == multiset{};
    forall m | m in st' ensures LinkOk(st', rank', m) && NodeOk(st', m) && InOrder(st'[m].body, now) {
      if m != n {
        CreatedElsewhere(st, rank, n, b, now, m);
      }
    }
  }

  lemma DeletedSound(st: Store, rank: map<Id, nat>, n: Id, now: nat)
    requires Linked(st, rank) && AllOk(st) && AllInOrder(st, now)
    requires n in st && st[n].parent.None? && Kids(st[n].body) == multiset{}
    ensures var st' := st - {n};
      Linked(st', rank) && AllOk(st') && AllInOrder(st', now)
  {
    var st' := st - {n};
    forall m | m in st' ensures LinkOk(st', rank, m) && NodeOk(st', m) && InOrder(st'[m].body, now) {
      assert LinkOk(st, rank, m) && NodeOk(st, m) && InOrder(st[m].body, now);
      forall c | c in Kids(st[m].body) ensures c != n {
      }
      NodeFrame(st, st', m);
    }
  }
}

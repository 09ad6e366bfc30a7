/**
 What operations on a tree do to the settings and lists of a class: priorities, strides, resources, limits and waits
 stay as they were set, `AddChild` puts in exactly the child asked for, and `RemoveChild` takes exactly it out
 (bess/core/traffic_class.cc:81-238, 310-368, 437-470).
 */
module TcEffects {
  import opened Wrappers
  import opened Stride
  import TokenBucket
  import opened TrafficClass
  import opened TcUnblock
  import opened TcBlock
  import opened TcAccount
  import opened TcTree
  import opened SchedulerSpec
  import opened TcWalks

  // ----- settings -----

  /** The children of a priority class with their numbers. */
  function Numbers(b: Body): multiset<Prio> {
    if b.Priority? then multiset(b.children) else multiset{}
  }

  /** The children of a weighted-fair class with their strides. */
  function Weights(b: Body): multiset<Weight> {
    if b.WeightedFair? then Strides(b.runnable) + Strides(b.sleeping) else multiset{}
  }

  /** The class keeps its kind, its resource, its limit and burst, and a leaf its wait. */
  ghost predicate SameFixed(b: Body, b': Body) {
    match b
    case Priority(_, _) => b'.Priority?
    case WeightedFair(resource, _, _) => b'.WeightedFair? && b'.resource == resource
    case RoundRobin(_, _, _) => b'.RoundRobin?
    case RateLimit(limited, bucket, _) =>
      b'.RateLimit? && b'.limited == limited && b'.bucket.limit == bucket.limit && b'.bucket.maxBurst == bucket.maxBurst
    case Leaf(waitCycles, _) => b'.Leaf? && b'.waitCycles == waitCycles
  }

  lemma {:induction false} WakeAllStrides(st: Store, runnable: seq<Entry>, sleeping: seq<Entry>)
    ensures Strides(JoinAwake(st, runnable, sleeping)) + Strides(StillAsleep(st, sleeping)) == Strides(runnable) + Strides(sleeping)
    decreases |sleeping|
  {
    if sleeping != [] {
      var e, rest := sleeping[0], sleeping[1..];
      assert sleeping == [e] + rest;
      if IsBlocked(st, e.c) {
        WakeAllStrides(st, runnable, rest);
        PassedOverStrides(JoinAwake(st, runnable, rest), StillAsleep(st, rest), runnable, rest, e);
      } else {
        WakeAllStrides(st, Rejoined(runnable, e), rest);
        JoinedStrides(runnable, rest, e);
        assert StillAsleep(st, sleeping) == StillAsleep(st, rest);
      }
    }
  }

  lemma AccountKeepsWeights(st: Store, p: Id, c: Id, usage: Usage, tsc: nat)
    requires AccountReady(st, p, c) && InOrder(st[p].body, tsc) && st[p].body.WeightedFair?
    ensures Weights(AccountNode(st, p, c, usage, tsc).body) == Weights(st[p].body)
  {
    var b := st[p].body;
    var delta := PassDelta(b.runnable[0], usage.Of(b.resource));
    if IsBlocked(st, c) {
      MoveHeadStrides(b.runnable, b.sleeping, delta);
    } else {
      ChargedStrides(b.runnable, delta);
    }
  }

  lemma BlockKeepsWeights(st: Store, b: Body)
    requires b.WeightedFair?
    ensures Weights(BlockBody(st, b)) == Weights(b)
  {
    var k := FirstBlocked(st, b.runnable);
    if k < |b.runnable| {
      var r, s := b.runnable[..k] + b.runnable[k + 1..], b.sleeping + [b.runnable[k]];
      MoveStrides(b.runnable, b.sleeping, k, b.runnable[k]);
      assert BlockBody(st, b) == WeightedFair(b.resource, r, s);
    }
  }

  lemma UpdateKeepsFixed(p: Id, b: Body, u: Update)
    requires Applicable(p, b, u) && !u.Listed? && !u.Unlisted?
    ensures SameFixed(b, Updated(p, b, u)) && Numbers(Updated(p, b, u)) == Numbers(b)
  {
  }

  lemma UpdateKeepsWeights(p: Id, b: Body, u: Update)
    requires Applicable(p, b, u) && !u.Listed? && !u.Unlisted? && b.WeightedFair?
    ensures Weights(Updated(p, b, u)) == Weights(b)
  {
    match u
    case Accounted(st, kid, usage, at) => AccountKeepsWeights(st, p, kid, usage, at);
    case Unblocked(st, _) => WakeAllStrides(st, b.runnable, b.sleeping);
    case Blocked(st) => BlockKeepsWeights(st, b);
  }

  /** Accounting, unblocking, waking and blocking leave all settings alone. */
  lemma UpdateKeepsSettings(p: Id, b: Body, u: Update)
    requires Applicable(p, b, u) && !u.Listed? && !u.Unlisted?
    ensures SameFixed(b, Updated(p, b, u)) && Numbers(Updated(p, b, u)) == Numbers(b) && Weights(Updated(p, b, u)) == Weights(b)
  {
    UpdateKeepsFixed(p, b, u);
    if b.WeightedFair? {
      UpdateKeepsWeights(p, b, u);
    }
  }

  /** `AddChild` puts in the child, with the number or the stride of the share asked for; the others keep theirs. */
  lemma ListedSettings(p: Id, b: Body, st: Store, c: Id, link: Link)
    requires Applicable(p, b, Listed(st, c, link))
    ensures var b' := Updated(p, b, Listed(st, c, link));
      && SameFixed(b, b')
      && (b.Priority? ==> Numbers(b') == Numbers(b) + multiset{Prio(link.priority, c)})
      && (b.WeightedFair? ==> link.share != 0 && Weights(b') == Weights(b) + multiset{Weight(c, 1048576.0 / link.share as real)})
      && (!b.WeightedFair? ==> Weights(b') == Weights(b))
  {
    if b.Priority? {
      InsertPrioEntries(b.children, Prio(link.priority, c));
    } else if b.WeightedFair? {
      AddStrides(b.runnable, b.sleeping, Entry(c, StrideOf(link.share), NextPass(b.runnable)));
    }
  }

  lemma {:induction false} InsertPrioEntries(children: seq<Prio>, d: Prio)
    ensures multiset(InsertPrio(children, d)) == multiset(children) + multiset{d}
  {
    if children != [] && children[|children| - 1].priority > d.priority {
      var front, last := children[..|children| - 1], children[|children| - 1];
      InsertPrioEntries(front, d);
      assert children == front + [last];
    }
  }

  /** `RemoveChild` takes out an entry of the child; the others keep their numbers and strides. */
  lemma UnlistedSettings(b: Body, c: Id) returns (number: nat, stride: real)
    requires c in Kids(b)
    ensures var b' := RemovedBody(b, c);
      && SameFixed(b, b')
      && (b.Priority? ==> Numbers(b') + multiset{Prio(number, c)} == Numbers(b))
      && (b.WeightedFair? ==> Weights(b') + multiset{Weight(c, stride)} == Weights(b))
  {
    number, stride := 0, 0.0;
    if b.Priority? {
      number := UnlistedNumber(b, c);
    } else if b.WeightedFair? {
      stride := UnlistedWeight(b, c);
    }
  }

  lemma NumbersErase(children: seq<Prio>, i: nat)
    requires i < |children|
    ensures multiset(Erase(children, i)) + multiset{children[i]} == multiset(children)
  {
    assert children == children[..i] + ([children[i]] + children[i + 1..]);
  }

  lemma UnlistedNumber(b: Body, c: Id) returns (number: nat)
    requires b.Priority? && c in Kids(b)
    ensures Numbers(RemovedBody(b, c)) + multiset{Prio(number, c)} == Numbers(b)
  {
    var i := IndexOf(Ids(b.children), c);
    number := b.children[i].priority;
    assert b.children[i] == Prio(number, c);
    NumbersErase(b.children, i);
  }

  lemma StridesWithout(q: seq<Entry>, c: Id) returns (stride: real)
    requires c in EntryIds(q)
    ensures Strides(Erase(q, IndexOf(EntryIds(q), c))) + multiset{Weight(c, stride)} == Strides(q)
  {
    var i := IndexOf(EntryIds(q), c);
    stride := q[i].stride;
    assert q[i].c == c;
    StridesErase(q, i);
  }

  lemma UnlistedWeight(b: Body, c: Id) returns (stride: real)
    requires b.WeightedFair? && c in Kids(b)
    ensures Weights(RemovedBody(b, c)) + multiset{Weight(c, stride)} == Weights(b)
  {
    KidsOfWf(b, c);
    if c in EntryIds(b.sleeping) {
      stride := StridesWithout(b.sleeping, c);
      var rest := Erase(b.sleeping, IndexOf(EntryIds(b.sleeping), c));
      RightLoses(Strides(b.runnable), Strides(b.sleeping), Strides(rest), Weight(c, stride));
      assert RemovedBody(b, c) == WeightedFair(b.resource, b.runnable, rest);
    } else {
      stride := StridesWithout(b.runnable, c);
      var rest := Erase(b.runnable, IndexOf(EntryIds(b.runnable), c));
      LeftLoses(Strides(b.runnable), Strides(rest), Strides(b.sleeping), Weight(c, stride));
      assert RemovedBody(b, c) == WeightedFair(b.resource, rest, b.sleeping);
    }
  }

  lemma {:induction false} UpdatesKeepSettings(p: Id, b: Body, us: seq<Update>)
    requires AllApplicable(p, b, us) && forall i :: 0 <= i < |us| ==> !us[i].Listed? && !us[i].Unlisted?
    ensures var b' := AllUpdated(p, b, us); SameFixed(b, b') && Numbers(b') == Numbers(b) && Weights(b') == Weights(b)
    decreases |us|
  {
    if us != [] {
      UpdateKeepsSettings(p, b, us[0]);
      UpdatesKeepSettings(p, Updated(p, b, us[0]), us[1..]);
    }
  }

  /**
   No operation anywhere in the tree changes the kind, resource, limit, burst or wait of a class, or the number or
   stride of a child that stays. Adding a child to it adds that child with the number or share asked for, and removing
   one takes out an entry of that child.
   */
  lemma OperationKeepsSettings(x: Call, p: Id)
    requires Callable(x) && p in x.st && p in x.rank
    ensures p in Outcome(x)
    ensures var b, b' := x.st[p].body, Outcome(x)[p].body;
      SameFixed(b, b') &&
      if x.op.Add? && x.op.parent == p then
        && (b.Priority? ==> Numbers(b') == Numbers(b) + multiset{Prio(x.op.link.priority, x.op.child)})
        && (b.WeightedFair? ==>
              Weights(b') == Weights(b) + multiset{Weight(x.op.child, 1048576.0 / x.op.link.share as real)})
      else if x.op.Remove? && x.op.parent == p then
        && (b.Priority? ==> exists k :: Numbers(b') + multiset{Prio(k, x.op.child)} == Numbers(b))
        && (b.WeightedFair? ==> exists s :: Weights(b') + multiset{Weight(x.op.child, s)} == Weights(b))
      else Numbers(b') == Numbers(b) && Weights(b') == Weights(b)
  {
    if x.op.Add? && x.op.parent == p {
      AddSettings(x, p);
    } else if x.op.Remove? && x.op.parent == p {
      RemoveSettings(x, p);
    } else {
      var us := OperationUpdates(x, p);
      NoneListed(x, p, us);
      UpdatesKeepSettings(p, x.st[p].body, us);
    }
  }

  /** After the first update the settings stay. */
  lemma RestKeepsSettings(p: Id, b: Body, us: seq<Update>)
    requires AllApplicable(p, b, us) && us != [] && SameFixed(b, Updated(p, b, us[0]))
    requires forall i :: 1 <= i < |us| ==> !us[i].Listed? && !us[i].Unlisted?
    ensures var b1, b' := Updated(p, b, us[0]), AllUpdated(p, b, us);
      SameFixed(b, b') && Numbers(b') == Numbers(b1) && Weights(b') == Weights(b1)
  {
    UpdatesKeepSettings(p, Updated(p, b, us[0]), us[1..]);
    FixedTransitive(b, Updated(p, b, us[0]), AllUpdated(p, b, us));
  }

  lemma AddSettings(x: Call, p: Id)
    requires Callable(x) && p in x.st && p in x.rank && x.op.Add? && x.op.parent == p
    ensures p in Outcome(x)
    ensures var b, b' := x.st[p].body, Outcome(x)[p].body;
      && SameFixed(b, b')
      && (b.Priority? ==> Numbers(b') == Numbers(b) + multiset{Prio(x.op.link.priority, x.op.child)})
      && (b.WeightedFair? ==>
            Weights(b') == Weights(b) + multiset{Weight(x.op.child, 1048576.0 / x.op.link.share as real)})
  {
    var us := OperationUpdates(x, p);
    ListedSettings(p, x.st[p].body, x.st, x.op.child, x.op.link);
    RestKeepsSettings(p, x.st[p].body, us);
  }

  lemma RemoveSettings(x: Call, p: Id)
    requires Callable(x) && p in x.st && p in x.rank && x.op.Remove? && x.op.parent == p
    ensures p in Outcome(x)
    ensures var b, b' := x.st[p].body, Outcome(x)[p].body;
      && SameFixed(b, b')
      && (b.Priority? ==> exists k :: Numbers(b') + multiset{Prio(k, x.op.child)} == Numbers(b))
      && (b.WeightedFair? ==> exists s :: Weights(b') + multiset{Weight(x.op.child, s)} == Weights(b))
  {
    var us := OperationUpdates(x, p);
    var number, stride := UnlistedSettings(x.st[p].body, x.op.child);
    RestKeepsSettings(p, x.st[p].body, us);
  }

  lemma FixedTransitive(a: Body, b: Body, c: Body)
    requires SameFixed(a, b) && SameFixed(b, c)
    ensures SameFixed(a, c)
  {
  }

  lemma NoneListed(x: Call, p: Id, us: seq<Update>)
    requires Callable(x) && p in x.st && p in Outcome(x) && Fitting(x, p, us)
    requires x.op.Add? || x.op.Remove? ==> x.op.parent != p
    ensures forall i :: 0 <= i < |us| ==> !us[i].Listed? && !us[i].Unlisted?
  {
    if x.op.Wake? {
      forall i | 0 <= i < |us| ensures !us[i].Listed? && !us[i].Unlisted? {
        assert WakingUpdate(x.st, x.rank, x.op.until, p, us[i]);
      }
    }
  }

  // ----- AddChild -----

  /** The body of the new parent after `AddChild`. */
  lemma ParentAfterAdd(st: Store, rank: map<Id, nat>, n: Id, c: Id, link: Link, tsc: nat)
    requires Climbs(st, rank) && n in st && c in st && c != n && Fits(st[n].body, link) && !Refused(st, n, c, link)
    requires n in rank && c in rank && rank[c] < rank[n]
    ensures n in AddChildTo(st, rank, n, c, link, tsc)
    ensures AddChildTo(st, rank, n, c, link, tsc)[n].body ==
      if AddsQuietly(st, n, c) then AddedBody(st, n, c, link)
      else UnblockBody(Attached(st, n, c, link), AddedBody(st, n, c, link), tsc)
  {
    AttachedClimbs(st, rank, n, c, link);
    if !AddsQuietly(st, n, c) {
      var st1, hit := UnblockUpAt(Attached(st, n, c, link), rank, n, tsc, n);
    }
  }

  /** The children of a priority class and a new one, in order, with the first runnable one of each row known. */
  ghost predicate AddedRow(st: Store, b: Body, c: Id, priority: nat, r: seq<Prio>) {
    && b.Priority? && PrioSorted(b.children) && PrioSorted(r) && !HasPriority(b.children, priority)
    && multiset(r) == multiset(b.children) + multiset{Prio(priority, c)}
    && b.firstRunnable <= |b.children| && PrefixBlocked(st, b.children, b.firstRunnable)
    && (b.firstRunnable < |b.children| ==> IsRunnable(st, b.children[b.firstRunnable].c))
    && c in st && forall i :: 0 <= i < |b.children| ==> b.children[i].c in st
  }

  ghost predicate ComesFirst(st: Store, children: seq<Prio>, c: Id, priority: nat) {
    IsRunnable(st, c) && forall i :: 0 <= i < |children| && IsRunnable(st, children[i].c) ==> priority < children[i].priority
  }

  lemma RowMember(st: Store, b: Body, c: Id, priority: nat, r: seq<Prio>, i: nat)
    requires AddedRow(st, b, c, priority, r) && i < |r|
    ensures r[i].c in st && (r[i] == Prio(priority, c) || r[i] in b.children)
  {
    assert r[i] in multiset(r);
  }

  lemma NewIsFirst(st: Store, b: Body, c: Id, priority: nat, r: seq<Prio>, first: nat)
    requires AddedRow(st, b, c, priority, r) && first == FirstRunnable(st, r, 0) && ComesFirst(st, b.children, c, priority)
    ensures first < |r| && r[first].c == c
  {
    assert Prio(priority, c) in multiset(r);
    var k :| 0 <= k < |r| && r[k] == Prio(priority, c);
    RowMember(st, b, c, priority, r, first);
  }

  lemma OldStaysFirst(st: Store, b: Body, c: Id, priority: nat, r: seq<Prio>, first: nat)
    requires AddedRow(st, b, c, priority, r) && first == FirstRunnable(st, r, 0) && !ComesFirst(st, b.children, c, priority)
    ensures (if first < |r| then Some(r[first].c) else None) == Pick(b)
  {
    var f := b.firstRunnable;
    if first < |r| {
      RowMember(st, b, c, priority, r, first);
    }
    if f < |b.children| {
      assert b.children[f] in multiset(r);
      var j :| 0 <= j < |r| && r[j] == b.children[f];
    }
  }

  /**
   A priority class after `AddChild`: the old children with their numbers and the new one with the number asked for,
   in order. The new child is picked next if it is runnable and comes before every runnable one; else the pick stays.
   */
  lemma AddToPriority(st: Store, rank: map<Id, nat>, n: Id, c: Id, priority: nat, tsc: nat)
    requires Linked(st, rank) && Climbs(st, rank) && AllOk(st) && AllInOrder(st, tsc)
    requires n in st && c in st && c != n && st[n].body.Priority? && !Refused(st, n, c, ByPriority(priority))
    requires n in rank && c in rank && rank[c] < rank[n]
    ensures var st' := AddChildTo(st, rank, n, c, ByPriority(priority), tsc);
      && n in st' && st'[n].body.Priority?
      && var was, now := st[n].body.children, st'[n].body.children;
         && multiset(now) == multiset(was) + multiset{Prio(priority, c)} && PrioSorted(now)
         && Pick(st'[n].body) ==
              if IsRunnable(st, c) && forall i :: 0 <= i < |was| && IsRunnable(st, was[i].c) ==> priority < was[i].priority
              then Some(c) else Pick(st[n].body)
  {
    var link := ByPriority(priority);
    var b, r := st[n].body, InsertPrio(st[n].body.children, Prio(priority, c));
    ParentAfterAdd(st, rank, n, c, link, tsc);
    RowAdded(st, rank, n, c, priority, tsc);
    SameFirst(st, Attached(st, n, c, link), r, 0);
    if ComesFirst(st, b.children, c, priority) {
      NewIsFirst(st, b, c, priority, r, FirstRunnable(st, r, 0));
    } else {
      OldStaysFirst(st, b, c, priority, r, FirstRunnable(st, r, 0));
    }
  }

  lemma RowAdded(st: Store, rank: map<Id, nat>, n: Id, c: Id, priority: nat, tsc: nat)
    requires Linked(st, rank) && AllOk(st) && AllInOrder(st, tsc)
    requires n in st && c in st && st[n].body.Priority? && !HasPriority(st[n].body.children, priority)
    ensures AddedRow(st, st[n].body, c, priority, InsertPrio(st[n].body.children, Prio(priority, c)))
  {
    var b := st[n].body;
    assert NodeOk(st, n) && InOrder(b, tsc);
    InsertPrioEntries(b.children, Prio(priority, c));
    InsertPrioSorted(b.children, Prio(priority, c));
    KidsInStore(st, rank, n);
    forall i | 0 <= i < |b.children| ensures b.children[i].c in st {
      assert Ids(b.children)[i] in Kids(b);
    }
  }

  lemma {:induction false} SameFirst(st: Store, st': Store, children: seq<Prio>, i: nat)
    requires i <= |children| && forall d :: IsBlocked(st', d) == IsBlocked(st, d)
    ensures FirstRunnable(st', children, i) == FirstRunnable(st, children, i)
    decreases |children| - i
  {
    if i < |children| && IsBlocked(st, children[i].c) {
      SameFirst(st, st', children, i + 1);
    }
  }

  lemma {:induction false} NoneAwake(st: Store, runnable: seq<Entry>, sleeping: seq<Entry>)
    requires EntriesBlocked(st, sleeping)
    ensures JoinAwake(st, runnable, sleeping) == runnable && StillAsleep(st, sleeping) == sleeping
    decreases |sleeping|
  {
    if sleeping != [] {
      var e, rest := sleeping[0], sleeping[1..];
      assert IsBlocked(st, e.c);
      forall i | 0 <= i < |rest| ensures IsBlocked(st, rest[i].c) {
        assert IsBlocked(st, sleeping[i + 1].c);
      }
      NoneAwake(st, runnable, rest);
      assert [e] + rest == sleeping;
    }
  }

  lemma {:induction false} PushEntries(q: seq<Entry>, e: Entry)
    ensures multiset(Push(q, e)) == multiset(q) + multiset{e}
    decreases q
  {
    if q != [] && q[0].pass <= e.pass {
      PushEntries(q[1..], e);
      assert q == [q[0]] + q[1..];
    }
  }

  /**
   A weighted-fair class after `AddChild`: one new entry, with the stride of the share asked for and the least pass, in
   the queue or on the blocked list; every other entry keeps its list, its stride and its pass.
   */
  lemma AddToWeightedFair(st: Store, rank: map<Id, nat>, n: Id, c: Id, share: int, tsc: nat)
    requires Climbs(st, rank) && AllOk(st)
    requires n in st && c in st && c != n && st[n].body.WeightedFair? && !Refused(st, n, c, ByShare(share))
    requires n in rank && c in rank && rank[c] < rank[n]
    ensures var st' := AddChildTo(st, rank, n, c, ByShare(share), tsc);
      && n in st' && st'[n].body.WeightedFair? && share != 0
      && var b, b' := st[n].body, st'[n].body;
         var e := Entry(c, 1048576.0 / share as real, if b.runnable == [] then 0.0 else b.runnable[0].pass);
         && multiset(b'.runnable) == multiset(b.runnable) + (if st[c].blocked then multiset{} else multiset{e})
         && b'.sleeping == b.sleeping + (if st[c].blocked then [e] else [])
  {
    var link := ByShare(share);
    var st1, b := Attached(st, n, c, link), st[n].body;
    ParentAfterAdd(st, rank, n, c, link, tsc);
    var e := Entry(c, StrideOf(share), NextPass(b.runnable));
    PushEntries(b.runnable, e);
    assert NodeOk(st, n);
    if !st[c].blocked {
      forall i | 0 <= i < |b.sleeping| ensures IsBlocked(st1, b.sleeping[i].c) {
        assert IsBlocked(st, b.sleeping[i].c);
      }
      NoneAwake(st1, Push(b.runnable, e), b.sleeping);
    }
  }

  lemma {:induction false} NoneWaiting(st: Store, waiting: seq<Id>)
    requires AllBlocked(st, waiting)
    ensures Awake(st, waiting) == [] && Asleep(st, waiting) == waiting
  {
    if waiting != [] {
      var c, rest := waiting[0], waiting[1..];
      assert IsBlocked(st, c);
      forall i | 0 <= i < |rest| ensures IsBlocked(st, rest[i]) {
        assert IsBlocked(st, waiting[i + 1]);
      }
      NoneWaiting(st, rest);
      assert [c] + rest == waiting;
    }
  }

  /** A round robin after `AddChild`: the child is last on its list, and the turn stays if there was one. */
  lemma AddToRoundRobin(st: Store, rank: map<Id, nat>, n: Id, c: Id, tsc: nat)
    requires Climbs(st, rank) && AllOk(st)
    requires n in st && c in st && c != n && st[n].body.RoundRobin? && !Refused(st, n, c, Plain)
    requires n in rank && c in rank && rank[c] < rank[n]
    ensures var st' := AddChildTo(st, rank, n, c, Plain, tsc);
      && n in st' && st'[n].body.RoundRobin?
      && var b, b' := st[n].body, st'[n].body;
         && b'.ready == b.ready + (if st[c].blocked then [] else [c])
         && b'.waiting == b.waiting + (if st[c].blocked then [c] else [])
         && Pick(b') == if b.ready != [] then Pick(b) else if st[c].blocked then None else Some(c)
  {
    var added := AddedBody(st, n, c, Plain);
    ParentAfterAdd(st, rank, n, c, Plain, tsc);
    assert NodeOk(st, n);
    RingAdded(st, Attached(st, n, c, Plain), st[n].body, c, added, tsc);
  }

  lemma RingAdded(st: Store, st1: Store, b: Body, c: Id, added: Body, tsc: nat)
    requires b.RoundRobin? && AllBlocked(st, b.waiting) && c in st
    requires forall d :: IsBlocked(st1, d) == IsBlocked(st, d)
    requires added == if st[c].blocked then b.(waiting := b.waiting + [c]) else b.(ready := b.ready + [c])
    ensures UnblockBody(st1, added, tsc) == added
  {
    forall i | 0 <= i < |added.waiting| ensures IsBlocked(st1, added.waiting[i]) {
      assert i < |b.waiting| ==> IsBlocked(st, b.waiting[i]);
    }
    NoneWaiting(st1, added.waiting);
    assert added.ready + [] == added.ready;
  }

  /** A child added to a round robin at the top of its tree changes nothing but that class and the child's parent. */
  lemma AddBelowTop(st: Store, rank: map<Id, nat>, n: Id, c: Id, tsc: nat)
    requires Climbs(st, rank) && AllOk(st) && n in st && c in st && c != n && st[n].body.RoundRobin?
    requires st[n].parent.None? && st[c].parent.None? && n in rank && c in rank && rank[c] < rank[n]
    ensures var b := st[n].body;
      var ready := b.ready + (if st[c].blocked then [] else [c]);
      AddChildTo(st, rank, n, c, Plain, tsc) ==
        st[c := st[c].(parent := Some(n))]
          [n := Node(None, ready == [], RoundRobin(b.nextChild, ready, b.waiting + (if st[c].blocked then [c] else [])))]
  {
    var b, added := st[n].body, AddedBody(st, n, c, Plain);
    AttachedClimbs(st, rank, n, c, Plain);
    assert NodeOk(st, n);
    RingAdded(st, Attached(st, n, c, Plain), b, c, added, tsc);
    assert b.ready + [] == b.ready && b.waiting + [] == b.waiting;
  }

  /** A rate limiter after `AddChild`: it has the child, keeps its tokens, and counts from now. */
  lemma AddToRateLimit(st: Store, rank: map<Id, nat>, n: Id, c: Id, tsc: nat)
    requires Climbs(st, rank)
    requires n in st && c in st && c != n && st[n].body.RateLimit? && !Refused(st, n, c, Plain)
    requires n in rank && c in rank && rank[c] < rank[n]
    ensures var st' := AddChildTo(st, rank, n, c, Plain, tsc);
      n in st' && st'[n].body == st[n].body.(bucket := st[n].body.bucket.(lastTsc := tsc), child := Some(c))
  {
    ParentAfterAdd(st, rank, n, c, Plain, tsc);
  }

  // ----- RemoveChild -----

  /** With no blocked child in the queue, `BlockTowardsRoot` leaves the lists of a weighted-fair class alone. */
  lemma NothingToDrop(st: Store, b: Body)
    requires b.WeightedFair? && EntriesRunnable(st, b.runnable)
    ensures BlockBody(st, b) == b
  {
    var k := FirstBlocked(st, b.runnable);
    assert forall i :: 0 <= i < |b.runnable| ==> IsRunnable(st, b.runnable[i].c);
    assert k == |b.runnable|;
  }

  /** The queue of a class whose lists agree with its children, with one child taken out, holds no blocked child. */
  lemma RunnableWithout(st: Store, p: Id, kid: Id)
    requires p in st && NodeOk(st, p) && st[p].body.WeightedFair? && kid in st && kid != p && kid in Kids(st[p].body)
    requires kid !in EntryIds(st[p].body.sleeping)
    ensures EntriesRunnable(Detached(st, p, kid), RemovedBody(st[p].body, kid).runnable)
  {
    var b := st[p].body;
    KidsOfWf(b, kid);
    assert EntriesRunnable(st, b.runnable);
    EraseEntries(st, b.runnable, IndexOf(EntryIds(b.runnable), kid));
  }

  /** The body of the parent after `RemoveChild`. */
  lemma ParentAfterRemove(st: Store, rank: map<Id, nat>, n: Id, c: Id)
    requires Climbs(st, rank) && n in st && n in rank && c in st && c != n && c in Kids(st[n].body)
    ensures n in RemoveChildFrom(st, rank, n, c)
    ensures RemoveChildFrom(st, rank, n, c)[n].body ==
      if RemovesQuietly(st[n].body, c) then RemovedBody(st[n].body, c)
      else BlockBody(Detached(st, n, c), RemovedBody(st[n].body, c))
  {
    DetachedClimbs(st, rank, n, c);
    if !RemovesQuietly(st[n].body, c) {
      var st1, hit := BlockUpAt(Detached(st, n, c), rank, n, n);
    }
  }

  /** A priority class after `RemoveChild`: the child's entry is gone, and the pick stays unless it was that child. */
  lemma RemoveFromPriority(st: Store, rank: map<Id, nat>, n: Id, c: Id) returns (i: nat)
    requires Linked(st, rank) && Climbs(st, rank) && AllOk(st)
    requires n in st && n in rank && c in st && c != n && c in Kids(st[n].body) && st[n].body.Priority?
    ensures var st' := RemoveChildFrom(st, rank, n, c);
      && n in st' && st'[n].body.Priority?
      && var b, b' := st[n].body, st'[n].body;
         && i < |b.children| && b.children[i].c == c && b'.children == b.children[..i] + b.children[i + 1..]
         && (Pick(b) != Some(c) ==> Pick(b') == Pick(b))
  {
    var b, st1 := st[n].body, Detached(st, n, c);
    i := IndexOf(Ids(b.children), c);
    ParentAfterRemove(st, rank, n, c);
    assert NodeOk(st, n);
    var f, rest := b.firstRunnable, Erase(b.children, i);
    if f < |b.children| && b.children[f].c != c {
      var f' := if f > i then f - 1 else f;
      assert rest[f'] == b.children[f] && IsRunnable(st1, rest[f'].c);
    }
  }

  /** A weighted-fair class after `RemoveChild`: an entry of the child is gone from one list; the rest is as it was. */
  lemma RemoveFromWeightedFair(st: Store, rank: map<Id, nat>, n: Id, c: Id) returns (i: nat)
    requires Linked(st, rank) && Climbs(st, rank) && AllOk(st)
    requires n in st && n in rank && c in st && c != n && c in Kids(st[n].body) && st[n].body.WeightedFair?
    ensures var st' := RemoveChildFrom(st, rank, n, c);
      && n in st'
      && var b, b' := st[n].body, st'[n].body;
         || (i < |b.sleeping| && b.sleeping[i].c == c && b' == b.(sleeping := b.sleeping[..i] + b.sleeping[i + 1..]))
         || (i < |b.runnable| && b.runnable[i].c == c && b' == b.(runnable := b.runnable[..i] + b.runnable[i + 1..]))
  {
    var b := st[n].body;
    ParentAfterRemove(st, rank, n, c);
    KidsOfWf(b, c);
    if c in EntryIds(b.sleeping) {
      i := IndexOf(EntryIds(b.sleeping), c);
    } else {
      i := IndexOf(EntryIds(b.runnable), c);
      assert NodeOk(st, n);
      RunnableWithout(st, n, c);
      NothingToDrop(Detached(st, n, c), RemovedBody(b, c));
    }
  }

  lemma {:induction false} NoneToBlock(st: Store, r: Ring, i: nat)
    requires i <= |r.ready| && AllRunnable(st, r.ready)
    ensures BlockRing(st, r, i) == r
    decreases |r.ready| - i
  {
    if i < |r.ready| {
      assert IsRunnable(st, r.ready[i]);
      NoneToBlock(st, r, i + 1);
    }
  }

  /**
   A round robin after `RemoveChild`: the child is gone from its list. If it was runnable, the turn stays, or passes to
   the child behind it if it was its own.
   */
  lemma RemoveFromRoundRobin(st: Store, rank: map<Id, nat>, n: Id, c: Id) returns (i: nat)
    requires Linked(st, rank) && Climbs(st, rank) && AllOk(st)
    requires n in st && n in rank && c in st && c != n && c in Kids(st[n].body) && st[n].body.RoundRobin?
    ensures var st' := RemoveChildFrom(st, rank, n, c);
      && n in st' && st'[n].body.RoundRobin?
      && var b, b' := st[n].body, st'[n].body;
         || (i < |b.waiting| && b.waiting[i] == c && b' == b.(waiting := b.waiting[..i] + b.waiting[i + 1..]))
         || (&& i < |b.ready| && b.ready[i] == c && b'.ready == b.ready[..i] + b.ready[i + 1..] && b'.waiting == b.waiting
             && Pick(b') == (if |b.ready| == 1 then None
                             else if i == b.nextChild then Some(b.ready[if i + 1 == |b.ready| then 0 else i + 1])
                             else Pick(b)))
  {
    var b, st1 := st[n].body, Detached(st, n, c);
    ParentAfterRemove(st, rank, n, c);
    assert NodeOk(st, n);
    if c in b.waiting {
      i := IndexOf(b.waiting, c);
    } else {
      i := IndexOf(b.ready, c);
      RingWithoutChild(st, st1, b, i);
    }
  }

  lemma RingWithoutChild(st: Store, st1: Store, b: Body, i: nat)
    requires b.RoundRobin? && i < |b.ready| && b.nextChild < |b.ready| && AllRunnable(st, b.ready)
    requires forall d :: IsRunnable(st1, d) == IsRunnable(st, d)
    ensures var rest := Ring(AfterErase(b.nextChild, i, |b.ready| - 1), Erase(b.ready, i), b.waiting);
      BlockRing(st1, rest, 0) == rest
  {
    var rest := Ring(AfterErase(b.nextChild, i, |b.ready| - 1), Erase(b.ready, i), b.waiting);
    forall j | 0 <= j < |rest.ready| ensures IsRunnable(st1, rest.ready[j]) {
      assert IsRunnable(st, b.ready[if j < i then j else j + 1]);
    }
    NoneToBlock(st1, rest, 0);
  }

  /** A rate limiter after `RemoveChild`: it has no child, and keeps tokens and times. */
  lemma RemoveFromRateLimit(st: Store, rank: map<Id, nat>, n: Id, c: Id)
    requires Climbs(st, rank)
    requires n in st && n in rank && c in st && c != n && c in Kids(st[n].body) && st[n].body.RateLimit?
    ensures n in RemoveChildFrom(st, rank, n, c)
    ensures RemoveChildFrom(st, rank, n, c)[n].body == st[n].body.(child := None)
  {
    ParentAfterRemove(st, rank, n, c);
  }
}

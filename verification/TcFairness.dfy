/**
 Stride fairness of a weighted-fair class in a tree, over any run of the operations on that tree
 (bess/core/traffic_class.cc:188-298): accounting from a leaf, waking, adding and removing children anywhere.
 */
module TcFairness {
  import opened Wrappers
  import opened Stride
  import TokenBucket
  import opened TrafficClass
  import opened TcUnblock
  import opened TcBlock
  import opened TcAccount
  import opened TcTree
  import opened TcWalks
  import opened TcEffects
  import opened TcPolicies

  // ----- what one update does to the queue -----

  /** The passes stay within `d`, and a child that stays runnable has its pass moved by `service`. */
  ghost predicate Moved(b: Body, b': Body, d: real, x: Id, service: real)
    requires b.WeightedFair?
  {
    && b'.WeightedFair? && Spread(QueueOf(b'), d)
    && (Runnable(QueueOf(b), x) && Runnable(QueueOf(b'), x) ==> PassOf(b'.runnable, x) == PassOf(b.runnable, x) + service)
  }

  /** What a weighted-fair class charges to child `x` when it accounts for the child it picked. */
  function Charged(b: Body, usage: Usage, x: Id): real
    requires b.WeightedFair? && b.runnable != []
  {
    if b.runnable[0].c == x then PassDelta(b.runnable[0], usage.Of(b.resource)) else 0.0
  }

  lemma AccountMoves(st: Store, p: Id, c: Id, usage: Usage, tsc: nat, d: real, x: Id)
    requires AccountReady(st, p, c) && InOrder(st[p].body, tsc) && st[p].body.WeightedFair? && Spread(QueueOf(st[p].body), d)
    requires 0.0 <= PassDelta(st[p].body.runnable[0], usage.Of(st[p].body.resource)) <= d
    ensures Moved(st[p].body, AccountNode(st, p, c, usage, tsc).body, d, x, Charged(st[p].body, usage, x))
  {
    var b, b' := st[p].body, AccountNode(st, p, c, usage, tsc).body;
    var delta := PassDelta(b.runnable[0], usage.Of(b.resource));
    var s := if IsBlocked(st, c) then ChargeAndBlock(delta) else Charge(delta);
    AccountIsCharge(st, p, c, usage, tsc, d);
    StepKeepsSpread(QueueOf(b), s, d);
    assert Bag(b.runnable) == multiset{c} + Bag(b.runnable[1..]);
    if Runnable(QueueOf(b), x) && Runnable(QueueOf(b'), x) {
      PassIsService(QueueOf(b), s, d, x);
    }
  }

  lemma RejoinedKeeps(q: seq<Entry>, e: Entry, x: Id)
    ensures Bag(Rejoined(q, e))[x] >= Bag(q)[x]
    ensures Bag(q)[x] == 1 && Bag(Rejoined(q, e))[x] == 1 ==> PassOf(Rejoined(q, e), x) == PassOf(q, x)
  {
    var e' := e.(pass := NextPass(q) + e.pass);
    PushBag(q, e');
    if Bag(q)[x] == 1 && Bag(Rejoined(q, e))[x] == 1 {
      PassAfterPush(q, e', x);
    }
  }

  lemma {:induction false} JoinAwakeGrows(st: Store, runnable: seq<Entry>, sleeping: seq<Entry>, x: Id)
    ensures Bag(JoinAwake(st, runnable, sleeping))[x] >= Bag(runnable)[x]
    decreases |sleeping|
  {
    if sleeping != [] {
      var e := sleeping[0];
      if IsBlocked(st, e.c) {
        JoinAwakeGrows(st, runnable, sleeping[1..], x);
      } else {
        RejoinedKeeps(runnable, e, x);
        JoinAwakeGrows(st, Rejoined(runnable, e), sleeping[1..], x);
      }
    }
  }

  lemma {:induction false} JoinAwakeKeepsPass(st: Store, runnable: seq<Entry>, sleeping: seq<Entry>, x: Id)
    requires Bag(runnable)[x] == 1 && Bag(JoinAwake(st, runnable, sleeping))[x] == 1
    ensures PassOf(JoinAwake(st, runnable, sleeping), x) == PassOf(runnable, x)
    decreases |sleeping|
  {
    if sleeping != [] {
      var e := sleeping[0];
      if IsBlocked(st, e.c) {
        JoinAwakeKeepsPass(st, runnable, sleeping[1..], x);
      } else {
        RejoinedKeeps(runnable, e, x);
        JoinAwakeGrows(st, Rejoined(runnable, e), sleeping[1..], x);
        JoinAwakeKeepsPass(st, Rejoined(runnable, e), sleeping[1..], x);
      }
    }
  }

  lemma UnblockMoves(st: Store, b: Body, tsc: nat, d: real, x: Id)
    requires b.WeightedFair? && Spread(QueueOf(b), d) && d >= 0.0
    ensures Moved(b, UnblockBody(st, b, tsc), d, x, 0.0)
  {
    UnblockKeepsSpread(st, b, tsc, d);
    if Runnable(QueueOf(b), x) && Runnable(QueueOf(UnblockBody(st, b, tsc)), x) {
      JoinAwakeKeepsPass(st, b.runnable, b.sleeping, x);
    }
  }

  /** Waking reaches the class by unblocking it, any number of times. */
  lemma {:induction false} WakingMoves(p: Id, b: Body, us: seq<Update>, d: real, x: Id)
    requires b.WeightedFair? && Spread(QueueOf(b), d) && d >= 0.0 && AllApplicable(p, b, us)
    requires forall i :: 0 <= i < |us| ==> us[i].Unblocked? || us[i].Woken?
    ensures Moved(b, AllUpdated(p, b, us), d, x, 0.0)
    ensures Bag(AllUpdated(p, b, us).runnable)[x] >= Bag(b.runnable)[x]
    decreases |us|
  {
    if us != [] {
      var b1 := Updated(p, b, us[0]);
      UnblockMoves(us[0].st, b, us[0].at, d, x);
      JoinAwakeGrows(us[0].st, b.runnable, b.sleeping, x);
      WakingMoves(p, b1, us[1..], d, x);
    }
  }

  lemma AddMoves(st: Store, st': Store, n: Id, c: Id, link: Link, tsc: nat, d: real, x: Id)
    requires n in st && c in st && Fits(st[n].body, link) && !Refused(st, n, c, link) && st[n].body.WeightedFair?
    requires Spread(QueueOf(st[n].body), d) && d >= 0.0 && !st[c].blocked
    ensures Moved(st[n].body, UnblockBody(st', AddedBody(st, n, c, link), tsc), d, x, 0.0)
  {
    var b, added := st[n].body, AddedBody(st, n, c, link);
    var e := Entry(c, StrideOf(link.share), NextPass(b.runnable));
    AddKeepsSpreadIff(st, n, c, link, d, []);
    UnblockMoves(st', added, tsc, d, x);
    var b' := UnblockBody(st', added, tsc);
    if Runnable(QueueOf(b), x) && Runnable(QueueOf(b'), x) {
      PushBag(b.runnable, e);
      JoinAwakeGrows(st', added.runnable, added.sleeping, x);
      PassAfterPush(b.runnable, e, x);
    }
  }

  lemma RemoveMoves(b: Body, c: Id, d: real, x: Id)
    requires b.WeightedFair? && c in Kids(b) && Spread(QueueOf(b), d) && d >= 0.0
    ensures Moved(b, RemovedBody(b, c), d, x, 0.0)
  {
    RemoveChildKeepsSpread(b, c, d);
    KidsOfWf(b, c);
    var i := IndexOf(EntryIds(b.sleeping), c);
    if i == |b.sleeping| && Runnable(QueueOf(b), x) && Runnable(QueueOf(RemovedBody(b, c)), x) {
      PassOfErase(b.runnable, IndexOf(EntryIds(b.runnable), c), x);
    }
  }

  // ----- runs of operations on the tree -----

  /**
   The hypotheses of fairness at class `p`: no charge exceeds `d`, children are added to `p` unblocked, and a
   removal further down blocks no runnable child of `p`.
   */
  ghost predicate Gentle(x: Call, p: Id, d: real)
    requires Callable(x)
  {
    && p in x.st && x.st[p].body.WeightedFair?
    && match x.op
       case Finish(leaf, usage, _) =>
         OnPath(x.st, x.rank, leaf, p) && x.st[p].body.runnable != [] ==>
           0.0 <= PassDelta(x.st[p].body.runnable[0], usage.Of(x.st[p].body.resource)) <= d
       case Unblock(_, _) => true
       case Wake(_, _) => true
       case Add(n, c, _, _) => n == p ==> !x.st[c].blocked
       case Remove(n, _) => n != p ==> EntriesRunnable(Outcome(x), x.st[p].body.runnable)
  }

  /** What class `p` charges to its child `c` in one operation. */
  ghost function ServiceAt(x: Call, p: Id, c: Id): real
    requires Callable(x) && p in x.st
  {
    if x.op.Finish? && OnPath(x.st, x.rank, x.op.leaf, p) && x.st[p].body.WeightedFair? && x.st[p].body.runnable != []
    then Charged(x.st[p].body, x.op.usage, c) else 0.0
  }

  lemma FinishMoves(x: Call, p: Id, d: real, c: Id)
    requires Callable(x) && x.op.Finish? && Gentle(x, p, d) && Spread(QueueOf(x.st[p].body), d) && d >= 0.0
    ensures p in Outcome(x) && Moved(x.st[p].body, Outcome(x)[p].body, d, c, ServiceAt(x, p, c))
  {
    var st1, kid := FinishUpAt(x.st, x.rank, x.op.leaf, x.op.usage, x.op.now, p);
    if OnPath(x.st, x.rank, x.op.leaf, p) {
      AccountMoves(st1, p, kid, x.op.usage, x.op.now, d, c);
    }
  }

  lemma AddingMoves(x: Call, p: Id, d: real, c: Id)
    requires Callable(x) && x.op.Add? && Gentle(x, p, d) && Spread(QueueOf(x.st[p].body), d) && d >= 0.0
    ensures p in Outcome(x) && Moved(x.st[p].body, Outcome(x)[p].body, d, c, 0.0)
  {
    var n, kid, link, at := x.op.parent, x.op.child, x.op.link, x.op.when;
    var st1 := Attached(x.st, n, kid, link);
    AttachedClimbs(x.st, x.rank, n, kid, link);
    if !AddsQuietly(x.st, n, kid) {
      var st2, hit := UnblockUpAt(st1, x.rank, n, at, p);
      if n == p {
        AddMoves(x.st, st1, n, kid, link, at, d, c);
      } else if hit {
        UnblockMoves(st2, x.st[p].body, at, d, c);
      }
    }
  }

  lemma RemovingHere(x: Call, p: Id, d: real, c: Id)
    requires Callable(x) && x.op.Remove? && Gentle(x, p, d) && Spread(QueueOf(x.st[p].body), d) && d >= 0.0
    requires x.op.parent == p
    ensures p in Outcome(x) && Moved(x.st[p].body, Outcome(x)[p].body, d, c, 0.0)
  {
    var kid := x.op.child;
    var b, st1 := x.st[p].body, Detached(x.st, p, kid);
    RemoveMoves(b, kid, d, c);
    DetachedClimbs(x.st, x.rank, p, kid);
    if !RemovesQuietly(b, kid) {
      var st2, hit := BlockUpAt(st1, x.rank, p, p);
      RunnableWithout(x.st, p, kid);
      NothingToDrop(st1, RemovedBody(b, kid));
    }
  }

  /** The children of a class do not lie above it. */
  lemma KidsBelow(st: Store, rank: map<Id, nat>, p: Id, i: nat)
    requires Linked(st, rank) && p in st && st[p].body.WeightedFair? && i < |st[p].body.runnable|
    ensures var k := st[p].body.runnable[i].c;
      p in rank && k in st && k in rank && k != p && k !in Above(rank, p)
  {
    var k := st[p].body.runnable[i].c;
    BagIndex(st[p].body.runnable, i);
    assert k in Kids(st[p].body);
    assert LinkOk(st, rank, p);
    assert LinkOk(st, rank, k);
  }

  lemma RemovingBelow(x: Call, p: Id, d: real, c: Id)
    requires Callable(x) && x.op.Remove? && Gentle(x, p, d) && Spread(QueueOf(x.st[p].body), d) && d >= 0.0
    requires x.op.parent != p
    ensures p in Outcome(x) && Outcome(x)[p].body == x.st[p].body
  {
    var n, kid := x.op.parent, x.op.child;
    var b, st1 := x.st[p].body, Detached(x.st, n, kid);
    DetachedClimbs(x.st, x.rank, n, kid);
    assert LinkOk(x.st, x.rank, p);
    if !RemovesQuietly(x.st[n].body, kid) {
      var st2, hit := BlockUpAt(st1, x.rank, n, p);
      if hit {
        forall i | 0 <= i < |b.runnable| ensures IsRunnable(st2, b.runnable[i].c) {
          KidsBelow(x.st, x.rank, p, i);
          assert IsRunnable(Outcome(x), b.runnable[i].c);
        }
        NothingToDrop(st2, b);
      }
    }
  }

  lemma RemovingMoves(x: Call, p: Id, d: real, c: Id)
    requires Callable(x) && x.op.Remove? && Gentle(x, p, d) && Spread(QueueOf(x.st[p].body), d) && d >= 0.0
    ensures p in Outcome(x) && Moved(x.st[p].body, Outcome(x)[p].body, d, c, 0.0)
  {
    if x.op.parent == p {
      RemovingHere(x, p, d, c);
    } else {
      RemovingBelow(x, p, d, c);
    }
  }

  /** Every operation on the tree keeps the passes of class `p` together, and moves them by what it charges. */
  lemma OperationMoves(x: Call, p: Id, d: real, c: Id)
    requires Callable(x) && Gentle(x, p, d) && Spread(QueueOf(x.st[p].body), d) && d >= 0.0
    ensures p in Outcome(x) && Moved(x.st[p].body, Outcome(x)[p].body, d, c, ServiceAt(x, p, c))
  {
    match x.op
    case Finish(_, _, _) => FinishMoves(x, p, d, c);
    case Unblock(from, at) =>
      var st1, hit := UnblockUpAt(x.st, x.rank, from, at, p);
      if hit {
        UnblockMoves(st1, x.st[p].body, at, d, c);
      }
    case Wake(queue, until) =>
      var us := WakeUpdates(x.st, x.rank, queue, until, p);
      forall i | 0 <= i < |us| ensures us[i].Unblocked? || us[i].Woken? {
        assert WakingUpdate(x.st, x.rank, until, p, us[i]);
      }
      WakingMoves(p, x.st[p].body, us, d, c);
    case Add(_, _, _, _) => AddingMoves(x, p, d, c);
    case Remove(_, _) => RemovingMoves(x, p, d, c);
  }

  /** A run at class `p`, whose lists are `body`, in which children `a` and `b` stay runnable. */
  ghost predicate RunAt(p: Id, body: Body, calls: seq<Call>, d: real, a: Id, b: Id)
    decreases |calls|
  {
    && body.WeightedFair? && Runnable(QueueOf(body), a) && Runnable(QueueOf(body), b)
    && (calls == [] ||
        (&& Callable(calls[0]) && Gentle(calls[0], p, d) && calls[0].st[p].body == body
         && p in Outcome(calls[0]) && RunAt(p, Outcome(calls[0])[p].body, calls[1..], d, a, b)))
  }

  ghost function TotalService(p: Id, body: Body, calls: seq<Call>, d: real, a: Id, b: Id, c: Id): real
    requires RunAt(p, body, calls, d, a, b)
    decreases |calls|
  {
    if calls == [] then 0.0
    else ServiceAt(calls[0], p, c) + TotalService(p, Outcome(calls[0])[p].body, calls[1..], d, a, b, c)
  }

  ghost function FinalBody(p: Id, body: Body, calls: seq<Call>, d: real, a: Id, b: Id): Body
    requires RunAt(p, body, calls, d, a, b)
    decreases |calls|
  {
    if calls == [] then body else FinalBody(p, Outcome(calls[0])[p].body, calls[1..], d, a, b)
  }

  lemma {:induction false} RunMoves(p: Id, body: Body, calls: seq<Call>, d: real, a: Id, b: Id)
    requires RunAt(p, body, calls, d, a, b) && Spread(QueueOf(body), d) && d >= 0.0
    ensures var end := FinalBody(p, body, calls, d, a, b);
      && end.WeightedFair? && Spread(QueueOf(end), d) && Runnable(QueueOf(end), a) && Runnable(QueueOf(end), b)
      && PassOf(end.runnable, a) == PassOf(body.runnable, a) + TotalService(p, body, calls, d, a, b, a)
      && PassOf(end.runnable, b) == PassOf(body.runnable, b) + TotalService(p, body, calls, d, a, b, b)
    decreases |calls|
  {
    if calls != [] {
      OperationMoves(calls[0], p, d, a);
      OperationMoves(calls[0], p, d, b);
      RunMoves(p, Outcome(calls[0])[p].body, calls[1..], d, a, b);
    }
  }

  /**
   Fairness in the tree: over any run of operations, anywhere in the tree, the service a weighted-fair class gives
   to two children that stay runnable, scaled by their shares, differs by at most twice the largest charge.
   */
  lemma ClassFairness(p: Id, body: Body, calls: seq<Call>, d: real, a: Id, b: Id)
    requires RunAt(p, body, calls, d, a, b) && Spread(QueueOf(body), d) && d >= 0.0
    ensures TotalService(p, body, calls, d, a, b, a) <= TotalService(p, body, calls, d, a, b, b) + 2.0 * d
    ensures TotalService(p, body, calls, d, a, b, b) <= TotalService(p, body, calls, d, a, b, a) + 2.0 * d
  {
    var end := FinalBody(p, body, calls, d, a, b);
    RunMoves(p, body, calls, d, a, b);
    WithinSpread(QueueOf(body), d, a, b);
    WithinSpread(QueueOf(body), d, b, a);
    WithinSpread(QueueOf(end), d, a, b);
    WithinSpread(QueueOf(end), d, b, a);
  }

  // ----- in terms of shares and of the resource used -----

  /** What the leaf that ran used of the resource of class `p`, if `p` had picked child `c`. */
  ghost function UsedAt(x: Call, p: Id, c: Id): nat
    requires Callable(x) && p in x.st
  {
    var b := x.st[p].body;
    if x.op.Finish? && OnPath(x.st, x.rank, x.op.leaf, p) && b.WeightedFair? && Pick(b) == Some(c)
    then x.op.usage.Of(b.resource) else 0
  }

  ghost function TotalUsed(p: Id, body: Body, calls: seq<Call>, d: real, a: Id, b: Id, c: Id): nat
    requires RunAt(p, body, calls, d, a, b)
    decreases |calls|
  {
    if calls == [] then 0
    else UsedAt(calls[0], p, c) + TotalUsed(p, Outcome(calls[0])[p].body, calls[1..], d, a, b, c)
  }

  /** A child that is listed once has one stride. */
  lemma OneStride(b: Body, c: Id, x: real, y: real)
    requires b.WeightedFair? && Kids(b)[c] <= 1 && Weight(c, x) in Weights(b) && Weight(c, y) in Weights(b)
    ensures x == y
  {
    StridesCount(b.runnable, c, x, y);
    StridesCount(b.sleeping, c, x, y);
  }

  lemma KidOnce(x: Call, p: Id, c: Id)
    requires Callable(x) && p in x.st
    ensures Kids(x.st[p].body)[c] <= 1
  {
    assert LinkOk(x.st, x.rank, p);
  }

  /** The charges for `u` units of the resource, one after the other. */
  function Ticks(stride: real, u: nat): real {
    if u == 0 then 0.0 else Ticks(stride, u - 1) + stride / QUANTUM
  }

  lemma {:induction false} TicksAdd(stride: real, u: nat, v: nat)
    ensures Ticks(stride, u + v) == Ticks(stride, u) + Ticks(stride, v)
    decreases v
  {
    if v > 0 {
      TicksAdd(stride, u, v - 1);
    }
  }

  lemma TicksJoin(stride: real, s: real, t: real, st: real, u: nat, v: nat, uv: nat)
    requires s == Ticks(stride, u) && t == Ticks(stride, v) && st == s + t && uv == u + v
    ensures st == Ticks(stride, uv)
  {
    TicksAdd(stride, u, v);
  }

  lemma {:induction false} TicksAreCharge(e: Entry, u: nat)
    ensures Ticks(e.stride, u) == PassDelta(e, u)
    decreases u
  {
    if u > 0 {
      TicksAreCharge(e, u - 1);
      assert u as real == (u - 1) as real + 1.0;
      assert e.stride * ((u - 1) as real + 1.0) == e.stride * (u - 1) as real + e.stride;
    }
  }

  /** The service of a child is the charge, at its stride, for what was used of the resource. */
  lemma ServiceIsUsage(x: Call, p: Id, c: Id, stride: real)
    requires Callable(x) && p in x.st && x.st[p].body.WeightedFair? && Weight(c, stride) in Weights(x.st[p].body)
    ensures ServiceAt(x, p, c) == Ticks(stride, UsedAt(x, p, c))
  {
    var b := x.st[p].body;
    if b.runnable != [] && b.runnable[0].c == c {
      StridesMember(b.runnable, 0);
      KidOnce(x, p, c);
      OneStride(b, c, stride, b.runnable[0].stride);
      TicksAreCharge(b.runnable[0], UsedAt(x, p, c));
    }
  }

  /** A child that stays keeps its stride, whatever happens in the tree. */
  lemma StrideStays(x: Call, p: Id, c: Id, stride: real)
    requires Callable(x) && p in x.st && p in x.rank && x.st[p].body.WeightedFair?
    requires Weight(c, stride) in Weights(x.st[p].body)
    ensures p in Outcome(x) && Outcome(x)[p].body.WeightedFair?
    ensures c in Kids(Outcome(x)[p].body) ==> Weight(c, stride) in Weights(Outcome(x)[p].body)
  {
    OperationKeepsSettings(x, p);
    if x.op.Remove? && x.op.parent == p {
      KidOnce(x, p, c);
      RemoveChildSound(x.st, x.rank, p, x.op.child);
      var s :| Weights(Outcome(x)[p].body) + multiset{Weight(x.op.child, s)} == Weights(x.st[p].body);
      if c != x.op.child {
        assert Weight(c, stride) in Weights(Outcome(x)[p].body) + multiset{Weight(x.op.child, s)};
      }
    }
  }

  ghost predicate Weighs(b: Body, c: Id, stride: real) {
    b.WeightedFair? && Weight(c, stride) in Weights(b)
  }

  lemma StepIsUsage(x: Call, p: Id, c: Id, stride: real)
    requires Callable(x) && p in x.st && Weighs(x.st[p].body, c, stride)
    requires p in Outcome(x) && Outcome(x)[p].body.WeightedFair? && Runnable(QueueOf(Outcome(x)[p].body), c)
    ensures ServiceAt(x, p, c) == Ticks(stride, UsedAt(x, p, c)) && Weighs(Outcome(x)[p].body, c, stride)
  {
    assert LinkOk(x.st, x.rank, p);
    ServiceIsUsage(x, p, c, stride);
    StrideStays(x, p, c, stride);
  }

  lemma FirstCall(p: Id, body: Body, calls: seq<Call>, d: real, a: Id, b: Id, c: Id)
    requires RunAt(p, body, calls, d, a, b) && calls != [] && (c == a || c == b)
    ensures p in calls[0].st && calls[0].st[p].body == body && body.WeightedFair? && p in Outcome(calls[0])
    ensures var b1 := Outcome(calls[0])[p].body;
      && b1.WeightedFair? && Runnable(QueueOf(b1), c) && RunAt(p, b1, calls[1..], d, a, b)
      && TotalService(p, body, calls, d, a, b, c) == ServiceAt(calls[0], p, c) + TotalService(p, b1, calls[1..], d, a, b, c)
      && TotalUsed(p, body, calls, d, a, b, c) == UsedAt(calls[0], p, c) + TotalUsed(p, b1, calls[1..], d, a, b, c)
  {
  }

  lemma {:induction false} TotalIsUsage(p: Id, body: Body, calls: seq<Call>, d: real, a: Id, b: Id, c: Id, stride: real)
    requires RunAt(p, body, calls, d, a, b) && (c == a || c == b) && Weighs(body, c, stride)
    ensures TotalService(p, body, calls, d, a, b, c) == Ticks(stride, TotalUsed(p, body, calls, d, a, b, c))
    decreases |calls|
  {
    if calls != [] {
      FirstCall(p, body, calls, d, a, b, c);
      var x, b1 := calls[0], Outcome(calls[0])[p].body;
      StepIsUsage(x, p, c, stride);
      TotalIsUsage(p, b1, calls[1..], d, a, b, c, stride);
      TicksJoin(stride, ServiceAt(x, p, c), TotalService(p, b1, calls[1..], d, a, b, c), TotalService(p, body, calls, d, a, b, c),
                UsedAt(x, p, c), TotalUsed(p, b1, calls[1..], d, a, b, c), TotalUsed(p, body, calls, d, a, b, c));
    }
  }

  lemma TicksPerShare(share: int, u: nat)
    requires share != 0
    ensures Ticks(StrideOf(share), u) == 1024.0 * (u as real / share as real)
  {
    TicksAreCharge(Entry(0, StrideOf(share), 0.0), u);
    var s, v := share as real, u as real;
    assert StrideOf(share) * v == STRIDE1 * (v / s) by {
      assert (v / s) * s == v;
      assert StrideOf(share) * s == STRIDE1;
      assert StrideOf(share) * ((v / s) * s) == (StrideOf(share) * s) * (v / s);
    }
  }

  lemma PerShare(serviceA: real, serviceB: real, usedA: nat, usedB: nat, shareA: int, shareB: int, d: real)
    requires shareA != 0 && shareB != 0
    requires serviceA == Ticks(StrideOf(shareA), usedA) && serviceB == Ticks(StrideOf(shareB), usedB)
    requires serviceA <= serviceB + 2.0 * d && serviceB <= serviceA + 2.0 * d
    ensures usedA as real / shareA as real <= usedB as real / shareB as real + d / 512.0
    ensures usedB as real / shareB as real <= usedA as real / shareA as real + d / 512.0
  {
    TicksPerShare(shareA, usedA);
    TicksPerShare(shareB, usedB);
  }

  /**
   The resource that two children of a weighted-fair class get while both stay runnable is divided in proportion to the
   shares they were added with: per unit of share it differs by at most the largest charge over 512.
   */
  lemma FairInShares(p: Id, body: Body, calls: seq<Call>, d: real, a: Id, b: Id, shareA: int, shareB: int)
    requires RunAt(p, body, calls, d, a, b) && Spread(QueueOf(body), d) && d >= 0.0 && shareA != 0 && shareB != 0
    requires Weight(a, 1048576.0 / shareA as real) in Weights(body) && Weight(b, 1048576.0 / shareB as real) in Weights(body)
    ensures var usedA := TotalUsed(p, body, calls, d, a, b, a) as real / shareA as real;
      var usedB := TotalUsed(p, body, calls, d, a, b, b) as real / shareB as real;
      usedA <= usedB + d / 512.0 && usedB <= usedA + d / 512.0
  {
    TotalIsUsage(p, body, calls, d, a, b, a, StrideOf(shareA));
    TotalIsUsage(p, body, calls, d, a, b, b, StrideOf(shareB));
    ClassFairness(p, body, calls, d, a, b);
    PerShare(TotalService(p, body, calls, d, a, b, a), TotalService(p, body, calls, d, a, b, b),
             TotalUsed(p, body, calls, d, a, b, a), TotalUsed(p, body, calls, d, a, b, b), shareA, shareB, d);
  }
}

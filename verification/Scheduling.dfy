/**
 The schedulers of a worker (bess/core/scheduler.h) and the tree of traffic classes they run
 (bess/core/traffic_class.cc). Each method is tied to the function that describes its effect on the
 classes, and keeps the whole scheduler consistent.
 */
module Scheduling {
  import opened Wrappers
  import opened Stride
  import opened TokenBucket
  import opened TrafficClass
  import opened TcUnblock
  import opened TcBlock
  import opened TcAccount
  import opened TcTree
  import opened TcLists
  import opened SchedulerSpec
  import opened TcEffects

  class Scheduler {
    var tcs: Store
    var wakeupQueue: seq<Id>
    var root: Option<Id>
    var defaultRr: Option<Id>
    var checkpoint: nat
    ghost var rank: map<Id, nat>  // grows from child to parent
    ghost var clock: nat          // the latest time stamp read

    ghost predicate TreeOk()
      reads this
    {
      Linked(tcs, rank) && Climbs(tcs, rank) && AllOk(tcs) && AllInOrder(tcs, clock) && QueueOk(tcs, wakeupQueue)
    }

    ghost predicate Valid()
      reads this
    {
      TreeOk() && RootsFit(tcs, root, defaultRr) && checkpoint <= clock
    }

    constructor ()
      ensures Valid() && tcs == map[] && wakeupQueue == [] && root.None? && defaultRr.None? && clock == 0
    {
      tcs, wakeupQueue, root, defaultRr, checkpoint := map[], [], None, None, 0;
      rank, clock := map[], 0;
    }

    // ----- towards the root -----

    method UnblockTowardsRoot(c: Id, tsc: nat)
      requires Climbs(tcs, rank) && c in tcs && c in rank
      modifies `tcs
      ensures tcs == UnblockUp(old(tcs), rank, c, tsc)
      decreases Above(rank, c)
    {
      var x := tcs[c];
      var body, nowBlocked := x.body, false;
      match x.body {
        case Priority(children, _) =>
          var first := ScanRunnable(tcs, children, 0);
          body, nowBlocked := Priority(children, first), first >= |children|;
        case WeightedFair(resource, runnable, sleeping) =>
          var r, s := WakeSleepers(tcs, runnable, sleeping);
          body, nowBlocked := WeightedFair(resource, r, s), r == [];
        case RoundRobin(next, ready, waiting) =>
          var r, w := WakeWaiting(tcs, ready, waiting);
          body, nowBlocked := RoundRobin(next, r, w), r == [];
        case RateLimit(resource, bucket, child) =>
          body := RateLimit(resource, bucket.(lastTsc := tsc), child);
          nowBlocked := bucket.wakeup != 0 || child.None? || IsBlocked(tcs, child.value);
        case Leaf(_, _) =>
      }
      var becameUnblocked := !nowBlocked && x.blocked;
      ghost var x' := UnblockNode(tcs, c, tsc);
      assert x' == Node(x.parent, nowBlocked, body);
      ClimbsFrame(tcs, rank, c, x');
      tcs := tcs[c := Node(x.parent, nowBlocked, body)];
      if x.parent.None? || !becameUnblocked {
        return;
      }
      AboveShrinks(rank, c, x.parent.value);
      UnblockTowardsRoot(x.parent.value, tsc);
    }

    method BlockTowardsRoot(c: Id)
      requires Climbs(tcs, rank) && c in tcs && c in rank
      modifies `tcs
      ensures tcs == BlockUp(old(tcs), rank, c)
      decreases Above(rank, c)
    {
      var x := tcs[c];
      var body, nowBlocked := x.body, false;
      match x.body {
        case Priority(children, first) =>
          var first' := first;
          if first < |children| {
            first' := ScanRunnable(tcs, children, first);
          }
          body, nowBlocked := Priority(children, first'), first' == |children|;
        case WeightedFair(resource, runnable, sleeping) =>
          var r, s := DropBlocked(tcs, runnable, sleeping);
          body, nowBlocked := WeightedFair(resource, r, s), r == [];
        case RoundRobin(next, ready, waiting) =>
          var r := DropBlockedFromRing(tcs, Ring(next, ready, waiting));
          body, nowBlocked := RoundRobin(r.next, r.ready, r.waiting), r.ready == [];
        case RateLimit(_, _, child) =>
          nowBlocked := child.None? || IsBlocked(tcs, child.value);
        case Leaf(_, _) =>
      }
      var becameBlocked := nowBlocked && !x.blocked;
      ghost var x' := BlockNode(tcs, c);
      assert x' == Node(x.parent, nowBlocked, body);
      ClimbsFrame(tcs, rank, c, x');
      tcs := tcs[c := Node(x.parent, nowBlocked, body)];
      if x.parent.None? || !becameBlocked {
        return;
      }
      AboveShrinks(rank, c, x.parent.value);
      BlockTowardsRoot(x.parent.value);
    }

    /** What class `p` does when its child `c` has used resources. */
    method AccountChild(p: Id, c: Id, usage: Usage, tsc: nat) returns (x: Node)
      requires AccountReady(tcs, p, c) && InOrder(tcs[p].body, tsc)
      ensures x == AccountNode(tcs, p, c, usage, tsc)
    {
      x := tcs[p];
      match x.body {
        case Priority(children, first) =>
          if IsBlocked(tcs, c) {
            var first' := ScanRunnable(tcs, children, first);
            x := Node(x.parent, first' == |children|, Priority(children, first'));
          }
        case WeightedFair(resource, runnable, sleeping) =>
          var item := runnable[0];
          var passDelta := PassDelta(item, usage.Of(resource));
          if IsBlocked(tcs, c) {
            item := item.(pass := passDelta);
            x := Node(x.parent, runnable[1..] == [], WeightedFair(resource, runnable[1..], sleeping + [item]));
          } else {
            item := item.(pass := item.pass + passDelta);
            x := Node(x.parent, x.blocked, WeightedFair(resource, Push(runnable[1..], item), sleeping));
          }
        case RoundRobin(next, ready, waiting) =>
          var next', ready', waiting', blocked := next, ready, waiting, x.blocked;
          if IsBlocked(tcs, c) {
            ready', waiting' := ready[..next] + ready[next + 1..], waiting + [c];
            blocked := ready' == [];
          } else {
            next' := next + usage.count;
          }
          if next' >= |ready'| {
            next' := 0;
          }
          x := Node(x.parent, blocked, RoundRobin(next', ready', waiting'));
        case RateLimit(resource, bucket, child) =>
          var consumed := ToWorkUnits(usage.Of(resource));
          var charged := TokenBucket.Charge(bucket, tsc, consumed);
          x := Node(x.parent, x.blocked || Exceeds(bucket, tsc, consumed) || IsBlocked(tcs, c),
                    RateLimit(resource, charged, child));
      }
    }

    method FinishAndAccountTowardsRoot(c: Id, usage: Usage, tsc: nat)
      requires Linked(tcs, rank) && Climbs(tcs, rank) && c in tcs && PathReady(tcs, rank, c) && AllInOrder(tcs, tsc)
      requires tsc > 0 && OkIfUnblocked(tcs, c) && QueueOk(tcs, wakeupQueue)
      modifies `tcs, `wakeupQueue
      ensures tcs == FinishUp(old(tcs), rank, c, usage, tsc)
      ensures QueueOk(tcs, wakeupQueue)
      decreases Above(rank, c)
    {
      if tcs[c].parent.None? {
        return;
      }
      var p := tcs[c].parent.value;
      AccountStep(tcs, rank, c, p, usage, tsc);
      var x := AccountChild(p, c, usage, tsc);
      ghost var before := tcs;
      var throttled := Throttles(tcs[p].body, usage, tsc);
      tcs := tcs[p := x];
      if throttled {
        wakeupQueue := Enqueued(tcs, wakeupQueue, p);
        QueuePush(before, tcs, old(wakeupQueue), p);
      } else {
        QueueFrame(before, tcs, wakeupQueue);
      }
      FinishAndAccountTowardsRoot(p, usage, tsc);
    }

    // ----- scheduling -----

    /** Wakes the classes whose wakeup time has passed. */
    method WakeTCs(tsc: nat)
      requires TreeOk() && tsc <= clock
      modifies `tcs, `wakeupQueue
      ensures TreeOk()
      ensures tcs == WakeDue(old(tcs), rank, old(wakeupQueue), tsc)
      ensures SameShape(old(tcs), tcs) && OnlyUnblocks(old(tcs), tcs) && WokenBefore(old(tcs), tcs, tsc)
    {
      WakeDueSound(tcs, rank, wakeupQueue, tsc);
      while wakeupQueue != []
        invariant TreeOk()
        invariant WakeDue(tcs, rank, wakeupQueue, tsc) == WakeDue(old(tcs), rank, old(wakeupQueue), tsc)
        decreases |wakeupQueue|
      {
        var c := wakeupQueue[0];
        assert c in wakeupQueue;
        var wakeupTime := WakeupTime(tcs[c].body);
        if wakeupTime >= tsc {
          break;
        }
        WakeOne(tcs, rank, wakeupQueue);
        ClearedInOrder(tcs, c, clock);
        LinkedRanked(tcs, rank, c);
        UnblockUpInOrder(Cleared(tcs, c), rank, c, wakeupTime, clock);
        wakeupQueue := wakeupQueue[1..];
        tcs := tcs[c := tcs[c].(body := ClearWakeup(tcs[c].body))];
        UnblockTowardsRoot(c, wakeupTime);
      }
    }

    /** Selects the leaf to run next. */
    method Next(tsc: nat) returns (leaf: Option<Id>)
      requires Valid() && tsc <= clock
      modifies `tcs, `wakeupQueue
      ensures Valid()
      ensures tcs == WakeDue(old(tcs), rank, old(wakeupQueue), tsc)
      ensures SameShape(old(tcs), tcs) && WokenBefore(old(tcs), tcs, tsc)
      ensures leaf.None? <==> root.None? || IsBlocked(tcs, root.value)
      ensures leaf.Some? ==>
        leaf.value == PickLeaf(tcs, rank, root.value) && IsRunnable(tcs, leaf.value)
        && tcs[leaf.value].body.Leaf? && PathReady(tcs, rank, leaf.value)
    {
      ghost var before := tcs;
      WakeTCs(tsc);
      ShapeKeepsRoots(before, tcs, root, defaultRr);
      if root.None? || tcs[root.value].blocked {
        return None;
      }
      var c := root.value;
      NextEndsAtLeaf(tcs, rank, c);
      c := Descend(tcs, rank, c);
      return Some(c);
    }

    /** The leaf that was run accounts for its usage. */
    method Account(leaf: Id, usage: Usage, now: nat)
      requires Linked(tcs, rank) && Climbs(tcs, rank) && leaf in tcs && PathReady(tcs, rank, leaf) && AllInOrder(tcs, now)
      requires now > 0 && OkIfUnblocked(tcs, leaf) && QueueOk(tcs, wakeupQueue)
      requires RootsFit(tcs, root, defaultRr) && checkpoint <= now
      modifies `tcs, `wakeupQueue, `clock, `checkpoint
      ensures tcs == FinishUp(old(tcs), rank, leaf, usage, now)
      ensures Valid() && clock == now && checkpoint == now
    {
      ghost var before := tcs;
      FinishUpSound(tcs, rank, leaf, usage, now);
      FinishAndAccountTowardsRoot(leaf, usage, now);
      LinkedClimbs(tcs, rank);
      ShapeKeepsRoots(before, tcs, root, defaultRr);
      clock := now;
      checkpoint := now;
    }

    /** Nothing can run: the time passes. */
    method Idle(now: nat)
      requires Valid() && clock <= now
      modifies `clock, `checkpoint
      ensures Valid() && clock == now && checkpoint == now
    {
      Later(tcs, clock, now);
      clock := now;
      checkpoint := now;
    }

    /** The leaf with nothing to do waits, and longer each time; a productive one waits less. */
    method BackOff(leaf: Id, idle: bool, now: nat)
      requires Linked(tcs, rank) && Climbs(tcs, rank) && AllOk(tcs) && QueueOk(tcs, wakeupQueue) && AllInOrder(tcs, now)
      requires IsRunnable(tcs, leaf) && tcs[leaf].body.Leaf? && PathReady(tcs, rank, leaf) && now > 0
      modifies `tcs, `wakeupQueue
      ensures tcs == if idle then BackedOff(old(tcs), leaf, now) else Eased(old(tcs), leaf)
      ensures Linked(tcs, rank) && Climbs(tcs, rank) && PathReady(tcs, rank, leaf) && AllInOrder(tcs, now)
      ensures OkIfUnblocked(tcs, leaf) && QueueOk(tcs, wakeupQueue) && SameShape(old(tcs), tcs)
    {
      ghost var before, queue := tcs, wakeupQueue;
      var wait := tcs[leaf].body.waitCycles;
      RunnableOk(tcs, leaf);
      assert InOrder(tcs[leaf].body, now);
      ghost var x := if idle then BackedOff(tcs, leaf, now)[leaf] else Eased(tcs, leaf)[leaf];
      LeafShape(before, rank, leaf, x);
      LeafUpdate(before, leaf, x);
      LeafInOrder(before, leaf, x, now);
      if idle {
        wait := if MAX_WAIT < wait * 2 then MAX_WAIT else wait * 2;
        tcs := tcs[leaf := Node(tcs[leaf].parent, true, Leaf(wait, now + wait))];
        wakeupQueue := Enqueued(tcs, wakeupQueue, leaf);
        QueuePush(before, tcs, queue, leaf);
      } else {
        tcs := tcs[leaf := tcs[leaf].(body := Leaf((wait + 1) / 2, tcs[leaf].body.wakeup))];
        QueueFrame(before, tcs, queue);
      }
    }

    /** One round of the default scheduler; `ret` is what the task reports and `now` the time when it ends. */
    method ScheduleOnce(ret: TaskResult, now: nat) returns (leaf: Option<Id>)
      requires Valid() && clock <= now && now > 0
      modifies `tcs, `wakeupQueue, `clock, `checkpoint
      ensures Valid() && checkpoint == now && clock == now
      ensures var woken := WakeDue(old(tcs), rank, old(wakeupQueue), old(checkpoint));
        if root.None? || IsBlocked(woken, root.value) then leaf.None? && tcs == woken
        else
          && leaf.Some? && RunReady(woken, rank, root, leaf.value, now)
          && tcs == FinishUp(woken, rank, leaf.value, Usage(1, now - old(checkpoint), ret.packets, ret.bits), now)
    {
      leaf := Next(checkpoint);
      if leaf.None? {
        Idle(now);
        return;
      }
      PickedReady(tcs, rank, root, leaf.value, clock, now);
      var usage := Usage(1, now - checkpoint, ret.packets, ret.bits);
      Account(leaf.value, usage, now);
    }

    /** One round of the experimental scheduler: a leaf with nothing to do waits, and uses nothing. */
    method ScheduleOnceWithBackoff(ret: TaskResult, now: nat) returns (leaf: Option<Id>)
      requires Valid() && clock <= now && now > 0
      modifies `tcs, `wakeupQueue, `clock, `checkpoint
      ensures Valid() && checkpoint == now && clock == now
      ensures var woken := WakeDue(old(tcs), rank, old(wakeupQueue), old(checkpoint));
        if root.None? || IsBlocked(woken, root.value) then leaf.None? && tcs == woken
        else
          && leaf.Some? && RunReady(woken, rank, root, leaf.value, now)
          && var idle := ret.packets == 0 && ret.block;
             var st := if idle then BackedOff(woken, leaf.value, now) else Eased(woken, leaf.value);
             var usage := if idle then Usage(0, 0, 0, 0) else Usage(1, now - old(checkpoint), ret.packets, ret.bits);
             && Climbs(st, rank) && PathReady(st, rank, leaf.value) && AllInOrder(st, now)
             && tcs == FinishUp(st, rank, leaf.value, usage, now)
    {
      leaf := Next(checkpoint);
      if leaf.None? {
        Idle(now);
        return;
      }
      ghost var woken := tcs;
      PickedReady(tcs, rank, root, leaf.value, clock, now);
      var usage, idle := Usage(0, 0, 0, 0), ret.packets == 0 && ret.block;
      BackOff(leaf.value, idle, now);
      ShapeKeepsRoots(woken, tcs, root, defaultRr);
      if !idle {
        usage := Usage(1, now - checkpoint, ret.packets, ret.bits);
      }
      Account(leaf.value, usage, now);
    }

    // ----- changing the tree -----

    /** `CreateTrafficClass`. */
    method CreateTrafficClass(id: Id, body: Body) returns (ok: bool)
      requires Valid() && Fresh(body)
      modifies `tcs, `rank
      ensures Valid()
      ensures ok <==> id !in old(tcs)
      ensures tcs == if ok then Created(old(tcs), id, body) else old(tcs)
    {
      if id in tcs {
        return false;
      }
      CreatedSound(tcs, rank, id, body, clock);
      ghost var before := tcs;
      tcs := tcs[id := Node(None, !body.Leaf?, body)];
      rank := rank[id := 0];
      LinkedClimbs(tcs, rank);
      QueueFrame(before, tcs, wakeupQueue);
      return true;
    }

    /** The lists of class `n` with the new child `c`. */
    method ListChild(n: Id, c: Id, link: Link) returns (ok: bool, body: Body)
      requires n in tcs && c in tcs && Fits(tcs[n].body, link)
      ensures ok <==> !Refused(tcs, n, c, link)
      ensures ok ==> body == AddedBody(tcs, n, c, link)
    {
      ok, body := false, tcs[n].body;
      if tcs[c].parent.Some? {
        return;
      }
      match body {
        case Priority(children, first) =>
          var taken := PriorityTaken(children, link.priority);
          if taken {
            return;
          }
          var children' := InsertSorted(children, Prio(link.priority, c));
          body := Priority(children', first);
        case WeightedFair(resource, runnable, sleeping) =>
          if link.share == 0 {
            return;
          }
          var childData := Entry(c, STRIDE1 / link.share as real, NextPass(runnable));
          if tcs[c].blocked {
            body := WeightedFair(resource, runnable, sleeping + [childData]);
          } else {
            body := WeightedFair(resource, Push(runnable, childData), sleeping);
          }
        case RoundRobin(next, ready, waiting) =>
          if tcs[c].blocked {
            body := RoundRobin(next, ready, waiting + [c]);
          } else {
            body := RoundRobin(next, ready + [c], waiting);
          }
        case RateLimit(resource, bucket, child) =>
          if child.Some? {
            return;
          }
          body := RateLimit(resource, bucket, Some(c));
      }
      ok := true;
    }

    /** `AddChild`, which leaves the scheduler's idea of its root to the caller. */
    method Attach(n: Id, c: Id, link: Link, tsc: nat) returns (ok: bool)
      requires TreeOk() && clock <= tsc && n in tcs && c in tcs && Fits(tcs[n].body, link) && RootOf(tcs, rank, n) != c
      modifies `tcs, `rank, `clock
      ensures TreeOk() && clock == tsc
      ensures ok <==> !Refused(old(tcs), n, c, link)
      ensures !ok ==> tcs == old(tcs) && rank == old(rank)
      ensures ok ==> c != n && Climbs(old(tcs), rank) && n in rank && c in rank && rank[c] < rank[n]
      ensures ok ==> tcs == AddChildTo(old(tcs), rank, n, c, link, tsc)
      ensures ok ==> Grown(old(tcs), tcs, n, c) && OnlyUnblocks(old(tcs), tcs)
    {
      var body;
      ok, body := ListChild(n, c, link);
      Later(tcs, clock, tsc);
      clock := tsc;
      if !ok {
        return;
      }
      ghost var before := tcs;
      LinkedRanked(tcs, rank, c);
      SunkBelow(tcs, rank, n, c);
      SunkLinked(tcs, rank, c);
      rank := Sunk(tcs, rank, c);
      LinkedClimbs(tcs, rank);
      AdditionKeepsTree(tcs, rank, wakeupQueue, n, c, link, tsc);
      AttachedClimbs(tcs, rank, n, c, link);
      var quiet := body.WeightedFair? && tcs[c].blocked;
      tcs := tcs[c := tcs[c].(parent := Some(n))][n := tcs[n].(body := body)];
      assert tcs == Attached(before, n, c, link);
      if !quiet {
        UnblockTowardsRoot(n, tsc);
      }
    }

    /** `AddChild` of a class that does not belong to the tree above `n`, and is not the root that is scheduled. */
    method AddChild(n: Id, c: Id, link: Link, tsc: nat) returns (ok: bool)
      requires Valid() && clock <= tsc && n in tcs && c in tcs && Fits(tcs[n].body, link)
      requires RootOf(tcs, rank, n) != c && root != Some(c)
      modifies `tcs, `rank, `clock
      ensures Valid() && clock == tsc
      ensures ok <==> !Refused(old(tcs), n, c, link)
      ensures !ok ==> tcs == old(tcs)
      ensures ok ==> c != n && Climbs(old(tcs), rank) && n in rank && c in rank && rank[c] < rank[n]
      ensures ok ==> tcs == AddChildTo(old(tcs), rank, n, c, link, tsc)
      ensures ok ==> Grown(old(tcs), tcs, n, c) && OnlyUnblocks(old(tcs), tcs)
    {
      ghost var before := tcs;
      ok := Attach(n, c, link, tsc);
      if ok {
        GrownKeepsRoots(before, tcs, n, c, root, defaultRr);
      }
    }

    method UnlistFair(body: Body, c: Id) returns (rest: Body, quiet: bool)
      requires body.WeightedFair? && c in Kids(body)
      ensures rest == RemovedBody(body, c) && quiet == RemovesQuietly(body, c)
    {
      KidsOfWf(body, c);
      var i := Find(EntryIds(body.sleeping), c);
      quiet := i < |body.sleeping|;
      if quiet {
        rest := WeightedFair(body.resource, body.runnable, body.sleeping[..i] + body.sleeping[i + 1..]);
      } else {
        i := Find(EntryIds(body.runnable), c);
        rest := WeightedFair(body.resource, body.runnable[..i] + body.runnable[i + 1..], body.sleeping);
      }
    }

    method UnlistRing(body: Body, c: Id) returns (rest: Body, quiet: bool)
      requires body.RoundRobin? && c in Kids(body)
      ensures rest == RemovedBody(body, c) && quiet == RemovesQuietly(body, c)
    {
      var i := Find(body.waiting, c);
      quiet := i < |body.waiting|;
      if quiet {
        rest := RoundRobin(body.nextChild, body.ready, body.waiting[..i] + body.waiting[i + 1..]);
      } else {
        i := Find(body.ready, c);
        var next := body.nextChild;
        if next > i {
          next := next - 1;
        }
        if next >= |body.ready| - 1 {
          next := 0;
        }
        rest := RoundRobin(next, body.ready[..i] + body.ready[i + 1..], body.waiting);
      }
    }

    /** The lists of class `n` without its child `c`. */
    method UnlistChild(n: Id, c: Id) returns (body: Body, quiet: bool)
      requires n in tcs && c in Kids(tcs[n].body)
      ensures body == RemovedBody(tcs[n].body, c) && quiet == RemovesQuietly(tcs[n].body, c)
    {
      body, quiet := tcs[n].body, false;
      match body {
        case Priority(children, first) =>
          var i := Find(Ids(children), c);
          var first' := first;
          if first > i {
            first' := first - 1;
          }
          body := Priority(children[..i] + children[i + 1..], first');
        case WeightedFair(_, _, _) =>
          body, quiet := UnlistFair(body, c);
        case RoundRobin(_, _, _) =>
          body, quiet := UnlistRing(body, c);
        case RateLimit(resource, bucket, _) =>
          body := RateLimit(resource, bucket, None);
        case Leaf(_, _) =>
      }
    }

    method Unlink(n: Id, c: Id) returns (quiet: bool)
      requires n in tcs && c in tcs && c != n && c in Kids(tcs[n].body)
      modifies `tcs
      ensures tcs == Detached(old(tcs), n, c) && quiet == RemovesQuietly(old(tcs)[n].body, c)
    {
      var body;
      body, quiet := UnlistChild(n, c);
      tcs := tcs[c := tcs[c].(parent := None)][n := tcs[n].(body := body)];
    }

    /** `RemoveChild`, once `c` is known to be a child of `n`. */
    method Detach(n: Id, c: Id)
      requires Climbs(tcs, rank) && n in tcs && n in rank && c in tcs && c != n && c in Kids(tcs[n].body)
      modifies `tcs
      ensures tcs == RemoveChildFrom(old(tcs), rank, n, c)
    {
      DetachedClimbs(tcs, rank, n, c);
      var quiet := Unlink(n, c);
      if !quiet {
        BlockTowardsRoot(n);
      }
    }

    method RemoveChild(n: Id, c: Id) returns (ok: bool)
      requires Valid() && n in tcs && c in tcs
      modifies `tcs
      ensures Valid()
      ensures ok <==> old(tcs)[c].parent == Some(n)
      ensures ok <==> c in Kids(old(tcs)[n].body)
      ensures !ok ==> tcs == old(tcs)
      ensures ok ==> c != n && tcs == RemoveChildFrom(old(tcs), rank, n, c)
      ensures ok ==> Pruned(old(tcs), tcs, n, c) && OnlyBlocks(old(tcs), tcs)
    {
      ChildIffParent(tcs, rank, n, c);
      ok := tcs[c].parent == Some(n);
      if ok {
        ghost var before := tcs;
        LinkedRanked(tcs, rank, n);
        RemovalKeepsTree(tcs, rank, wakeupQueue, n, c, clock);
        Detach(n, c);
        PrunedKeepsRoots(before, tcs, n, c, root, defaultRr);
      }
    }

    /** A new default round robin `rrId` becomes the parent of the old root and of `c`. */
    method AttachBelowNewRoot(top: Id, c: Id, rrId: Id, tsc: nat)
      requires TreeOk() && clock <= tsc && top in tcs && tcs[top].parent.None?
      requires c in tcs && tcs[c].parent.None? && top != c && rrId in tcs && rrId != top && rrId != c
      requires tcs[rrId] == Node(None, true, RoundRobin(0, [], []))
      modifies `tcs, `rank, `clock
      ensures TreeOk() && clock == tsc
      ensures tcs == BelowNewRoot(old(tcs), rrId, top, c)
    {
      ghost var st0 := tcs;
      var first := Attach(rrId, top, Plain, tsc);
      ghost var st1 := tcs;
      FirstBelow(st0, rank, rrId, top, tsc);
      var second := Attach(rrId, c, Plain, tsc);
      SecondBelow(st0, st1, rank, rrId, top, c, tsc);
    }

    /** Puts the orphan `c` at the top, below a default round robin (to be named `rrId`) if there is a root already. */
    method AttachOrphan(c: Id, rrId: Id, tsc: nat)
      requires Valid() && clock <= tsc && c in tcs && tcs[c].parent.None? && root != Some(c) && rrId !in tcs
      modifies `tcs, `rank, `clock, `root, `defaultRr
      ensures Valid() && clock <= tsc
      ensures old(root).None? ==> root == Some(c) && defaultRr == old(defaultRr) && tcs == old(tcs)
      ensures old(defaultRr).Some? ==>
        && root == old(root) && defaultRr == old(defaultRr) && Grown(old(tcs), tcs, defaultRr.value, c)
        && var rr := defaultRr.value;
           && Climbs(old(tcs), rank) && rr in rank && c in rank && rank[c] < rank[rr] && Fits(old(tcs)[rr].body, Plain)
           && tcs == AddChildTo(old(tcs), rank, rr, c, Plain, tsc)
      ensures old(root).Some? && old(defaultRr).None? ==>
        && root == Some(rrId) && defaultRr == Some(rrId)
        && tcs == BelowNewRoot(old(tcs), rrId, old(root).value, c)
        && tcs.Keys == old(tcs).Keys + {rrId} && Kids(tcs[rrId].body) == multiset{old(root).value, c}
        && (forall m :: m in old(tcs) ==> Kids(tcs[m].body) == Kids(old(tcs)[m].body))
        && (IsBlocked(tcs, rrId) <==> IsBlocked(tcs, old(root).value) && IsBlocked(tcs, c))
    {
      if root.None? {
        root := Some(c);
        return;
      }
      if defaultRr.Some? {
        var added := AddChild(defaultRr.value, c, Plain, tsc);
        return;
      }
      ghost var top := root.value;
      NewRootKids(tcs, rrId, top, c);
      AttachWithRoot(c, rrId, tsc);
    }

    /** The third case of `AttachOrphan`: a default round robin over the old root and `c` becomes the root. */
    method AttachWithRoot(c: Id, rrId: Id, tsc: nat)
      requires Valid() && clock <= tsc && c in tcs && tcs[c].parent.None? && root != Some(c) && rrId !in tcs
      requires root.Some? && defaultRr.None?
      modifies `tcs, `rank, `clock, `root, `defaultRr
      ensures Valid() && clock == tsc
      ensures root == Some(rrId) && defaultRr == Some(rrId)
      ensures tcs == BelowNewRoot(old(tcs), rrId, old(root).value, c)
    {
      var top := root.value;
      var made := CreateTrafficClass(rrId, RoundRobin(0, [], []));
      AttachBelowNewRoot(top, c, rrId, tsc);
      root, defaultRr := Some(rrId), Some(rrId);
    }

    /** `delete`, of a class without parent and children. */
    method Delete(n: Id)
      requires TreeOk() && n in tcs && tcs[n].parent.None? && tcs[n].body.RoundRobin? && Kids(tcs[n].body) == multiset{}
      modifies `tcs
      ensures TreeOk() && tcs == old(tcs) - {n}
    {
      ghost var before := tcs;
      DeletedSound(tcs, rank, n, clock);
      tcs := tcs - {n};
      LinkedClimbs(tcs, rank);
      QueueFrame(before, tcs, wakeupQueue);
    }

    /** Takes the only child `c` of the default round robin `rr` out, and deletes `rr`. */
    method Promote(rr: Id, c: Id)
      requires Valid() && root == Some(rr) && rr in tcs && c in tcs && c != rr
      requires tcs[rr].body.RoundRobin? && Kids(tcs[rr].body) == multiset{c}
      modifies `tcs
      ensures TreeOk() && tcs.Keys == old(tcs).Keys - {rr} && tcs[c].parent.None?
      ensures tcs == RemoveChildFrom(old(tcs), rank, rr, c) - {rr}
    {
      ghost var before := tcs;
      assert c in Kids(tcs[rr].body);
      var removed := RemoveChild(rr, c);
      PrunedToNothing(before, tcs, rr, c);
      Delete(rr);
    }

    /** Removes the default round robin when it has a single child, or none. */
    method AdjustDefault()
      requires Valid()
      modifies `tcs, `root, `defaultRr
      ensures Valid()
      ensures old(defaultRr).None? ==> root == old(root) && defaultRr.None? && tcs == old(tcs)
      ensures old(defaultRr).Some? ==>
        var rr := old(defaultRr).value;
        var children := RingChildren(old(tcs)[rr].body);
        if |children| == 0 then root.None? && defaultRr.None? && tcs == old(tcs) - {rr}
        else if |children| == 1 then
          && root == Some(children[0]) && defaultRr.None?
          && tcs.Keys == old(tcs).Keys - {rr} && children[0] in tcs && tcs[children[0]].parent.None?
        else root == old(root) && defaultRr == old(defaultRr) && tcs == old(tcs)
    {
      if root.None? || defaultRr.None? {
        return;
      }
      var rr := defaultRr.value;
      var children := RingChildren(tcs[rr].body);
      OnlyKid(tcs, rank, rr);
      if |children| == 0 {
        Delete(rr);
        root, defaultRr := None, None;
      } else if |children| == 1 {
        Promote(rr, children[0]);
        root, defaultRr := Some(children[0]), None;
      }
    }

    method RemoveRoot(c: Id) returns (ok: bool)
      requires Valid()
      modifies `root
      ensures Valid()
      ensures ok <==> old(root) == Some(c) && defaultRr.None?
      ensures root == if ok then None else old(root)
    {
      if root == Some(c) && defaultRr.None? {
        root := None;
        return true;
      }
      return false;
    }
  }

  method Descend(st: Store, ghost rank: map<Id, nat>, n: Id) returns (leaf: Id)
    requires Linked(st, rank) && Climbs(st, rank) && AllOk(st) && IsRunnable(st, n)
    ensures leaf == PickLeaf(st, rank, n)
  {
    leaf := n;
    LinkedRanked(st, rank, n);
    while !st[leaf].body.Leaf?
      invariant IsRunnable(st, leaf) && leaf in rank && PickLeaf(st, rank, leaf) == PickLeaf(st, rank, n)
      decreases rank[leaf]
    {
      assert NodeOk(st, leaf);
      PickIsRunnable(st, rank, leaf);
      leaf := Pick(st[leaf].body).value;
    }
  }

  /** The root has no parent, and a default round robin is the root. */
  ghost predicate RootsFit(st: Store, root: Option<Id>, defaultRr: Option<Id>) {
    && (root.Some? ==> root.value in st && st[root.value].parent.None?)
    && (defaultRr.Some? ==> root == defaultRr && st[defaultRr.value].body.RoundRobin?)
  }

  lemma ShapeKeepsRoots(st: Store, st': Store, root: Option<Id>, defaultRr: Option<Id>)
    requires RootsFit(st, root, defaultRr) && SameShape(st, st')
    ensures RootsFit(st', root, defaultRr)
  {
    if root.Some? {
      assert SameLinks(st[root.value], st'[root.value]);
    }
  }

  /** The leaf that `Next` picked may be run and accounted for. */
  ghost predicate RunReady(st: Store, rank: map<Id, nat>, root: Option<Id>, leaf: Id, now: nat) {
    && Linked(st, rank) && Climbs(st, rank) && AllOk(st) && AllInOrder(st, now)
    && root.Some? && IsRunnable(st, root.value) && leaf == PickLeaf(st, rank, root.value)
    && IsRunnable(st, leaf) && st[leaf].body.Leaf? && PathReady(st, rank, leaf)
  }

  /** What the next class up needs after class `p` has accounted for its child `c`. */
  lemma AccountStep(st: Store, rank: map<Id, nat>, c: Id, p: Id, usage: Usage, tsc: nat)
    requires Linked(st, rank) && Climbs(st, rank) && c in st && PathReady(st, rank, c) && AllInOrder(st, tsc)
    requires tsc > 0 && OkIfUnblocked(st, c) && st[c].parent == Some(p)
    ensures AccountReady(st, p, c) && InOrder(st[p].body, tsc) && Above(rank, p) < Above(rank, c)
    ensures var x := AccountNode(st, p, c, usage, tsc);
      && Linked(st[p := x], rank) && Climbs(st[p := x], rank) && PathReady(st[p := x], rank, p)
      && AllInOrder(st[p := x], tsc) && OkIfUnblocked(st[p := x], p)
      && FinishUp(st, rank, c, usage, tsc) == FinishUp(st[p := x], rank, p, usage, tsc)
      && WakeOf(st, p) == 0 && (WakeOf(st[p := x], p) != 0 <==> Throttles(st[p].body, usage, tsc))
  {
    OneStepUp(st, rank, c, usage, tsc);
    AccountStarts(st, rank, c);
    AccountNodeSound(st, p, c, usage, tsc);
    var x := AccountNode(st, p, c, usage, tsc);
    AboveShrinks(rank, c, p);
    AccountMovesUp(st, rank, c, p, x);
    TreeShape(st, rank, p, x);
  }

  /** The old root `top` and `c` below a new round robin `rr`, in this order on the list of their flags; `top` first. */
  function BelowNewRoot(st: Store, rr: Id, top: Id, c: Id): Store
    requires top in st && c in st
  {
    var ready := (if st[top].blocked then [] else [top]) + (if st[c].blocked then [] else [c]);
    var waiting := (if st[top].blocked then [top] else []) + (if st[c].blocked then [c] else []);
    st[top := st[top].(parent := Some(rr))][c := st[c].(parent := Some(rr))]
      [rr := Node(None, ready == [], RoundRobin(0, ready, waiting))]
  }

  lemma FirstBelow(st: Store, rank: map<Id, nat>, rr: Id, top: Id, tsc: nat)
    requires Climbs(st, rank) && AllOk(st) && rr in st && top in st && top != rr && st[top].parent.None?
    requires st[rr] == Node(None, true, RoundRobin(0, [], [])) && rr in rank && top in rank && rank[top] < rank[rr]
    ensures AddChildTo(st, rank, rr, top, Plain, tsc) ==
      st[top := st[top].(parent := Some(rr))]
        [rr := Node(None, st[top].blocked,
                    RoundRobin(0, if st[top].blocked then [] else [top], if st[top].blocked then [top] else []))]
  {
    AddBelowTop(st, rank, rr, top, tsc);
    var none: seq<Id> := [];
    assert none + [top] == [top] && none + none == none;
  }

  lemma SecondBelow(st: Store, st1: Store, rank: map<Id, nat>, rr: Id, top: Id, c: Id, tsc: nat)
    requires rr in st && top in st && c in st && top != rr && c != rr && top != c
    requires st1 == st[top := st[top].(parent := Some(rr))]
      [rr := Node(None, st[top].blocked,
                  RoundRobin(0, if st[top].blocked then [] else [top], if st[top].blocked then [top] else []))]
    requires Climbs(st1, rank) && AllOk(st1) && st1[c].parent.None? && rr in rank && c in rank && rank[c] < rank[rr]
    ensures AddChildTo(st1, rank, rr, c, Plain, tsc) == BelowNewRoot(st, rr, top, c)
  {
    AddBelowTop(st1, rank, rr, c, tsc);
  }

  lemma NewRootKids(st: Store, rr: Id, top: Id, c: Id)
    requires top in st && c in st && rr !in st && top != c
    ensures var st' := BelowNewRoot(st, rr, top, c);
      && st'.Keys == st.Keys + {rr} && Kids(st'[rr].body) == multiset{top, c}
      && (forall m :: m in st ==> Kids(st'[m].body) == Kids(st[m].body))
      && (IsBlocked(st', rr) <==> IsBlocked(st', top) && IsBlocked(st', c))
  {
    var st' := BelowNewRoot(st, rr, top, c);
    NewRootOthers(st, rr, top, c);
    RingKids(st'[rr].body, st[top].blocked, st[c].blocked, top, c);
  }

  lemma NewRootOthers(st: Store, rr: Id, top: Id, c: Id)
    requires top in st && c in st && rr !in st && top != c
    ensures var st' := BelowNewRoot(st, rr, top, c);
      && st'.Keys == st.Keys + {rr}
      && (forall m {:trigger st'[m].body} :: m in st ==> st'[m].body == st[m].body && st'[m].blocked == st[m].blocked)
      && st'[rr].blocked == (st[top].blocked && st[c].blocked)
  {
  }

  lemma RingKids(b: Body, x: bool, y: bool, top: Id, c: Id)
    requires b.RoundRobin? && b.ready == (if x then [] else [top]) + (if y then [] else [c])
    requires b.waiting == (if x then [top] else []) + (if y then [c] else [])
    ensures Kids(b) == multiset{top, c}
  {
    TwoLists(x, y, top, c);
  }

  lemma TwoLists(a: bool, b: bool, top: Id, c: Id)
    ensures multiset((if a then [] else [top]) + (if b then [] else [c]))
      + multiset((if a then [top] else []) + (if b then [c] else [])) == multiset{top, c}
  {
    if a {
      if b {
        assert [top] + [c] == [top, c];
      }
    } else if !b {
      assert [top] + [c] == [top, c];
    }
  }

  /** The leaf that `Next` picked, and what accounting for it needs. */
  lemma PickedReady(st: Store, rank: map<Id, nat>, root: Option<Id>, leaf: Id, clock: nat, now: nat)
    requires Linked(st, rank) && Climbs(st, rank) && AllOk(st) && AllInOrder(st, clock) && clock <= now
    requires root.Some? && IsRunnable(st, root.value) && leaf == PickLeaf(st, rank, root.value)
    requires IsRunnable(st, leaf) && st[leaf].body.Leaf? && PathReady(st, rank, leaf)
    ensures RunReady(st, rank, root, leaf, now) && OkIfUnblocked(st, leaf)
  {
    Later(st, clock, now);
    RunnableOk(st, leaf);
  }

  lemma GrownKeepsRoots(st: Store, st': Store, n: Id, c: Id, root: Option<Id>, defaultRr: Option<Id>)
    requires RootsFit(st, root, defaultRr) && n in st && c in st && root != Some(c) && Grown(st, st', n, c)
    ensures RootsFit(st', root, defaultRr)
  {
    if defaultRr.Some? {
      assert PolicyOf(st'[defaultRr.value].body) == PolicyOf(st[defaultRr.value].body);
    }
  }

  lemma PrunedKeepsRoots(st: Store, st': Store, n: Id, c: Id, root: Option<Id>, defaultRr: Option<Id>)
    requires RootsFit(st, root, defaultRr) && n in st && c in st && Pruned(st, st', n, c)
    ensures RootsFit(st', root, defaultRr)
  {
    if defaultRr.Some? {
      assert PolicyOf(st'[defaultRr.value].body) == PolicyOf(st[defaultRr.value].body);
    }
  }

  lemma AdditionKeepsTree(st: Store, rank: map<Id, nat>, q: seq<Id>, n: Id, c: Id, link: Link, tsc: nat)
    requires Linked(st, rank) && Climbs(st, rank) && AllOk(st) && AllInOrder(st, tsc) && QueueOk(st, q)
    requires n in st && c in st && c != n && Fits(st[n].body, link) && !Refused(st, n, c, link)
    requires n in rank && c in rank && rank[c] < rank[n]
    ensures var st' := AddChildTo(st, rank, n, c, link, tsc);
      && Linked(st', rank) && Climbs(st', rank) && AllOk(st') && AllInOrder(st', tsc) && QueueOk(st', q)
      && Grown(st, st', n, c) && OnlyUnblocks(st, st')
  {
    var st' := AddChildTo(st, rank, n, c, link, tsc);
    AddChildSound(st, rank, n, c, link, tsc);
    AddChildInOrder(st, rank, n, c, link, tsc);
    LinkedClimbs(st', rank);
    SameWakeOf(st, st');
    QueueFrame(st, st', q);
  }

  lemma RemovalKeepsTree(st: Store, rank: map<Id, nat>, q: seq<Id>, n: Id, c: Id, now: nat)
    requires Linked(st, rank) && Climbs(st, rank) && AllOk(st) && AllInOrder(st, now) && QueueOk(st, q)
    requires n in st && n in rank && c in st && c != n && c in Kids(st[n].body)
    ensures var st' := RemoveChildFrom(st, rank, n, c);
      && Linked(st', rank) && Climbs(st', rank) && AllOk(st') && AllInOrder(st', now) && QueueOk(st', q)
      && Pruned(st, st', n, c) && OnlyBlocks(st, st')
  {
    var st' := RemoveChildFrom(st, rank, n, c);
    RemoveChildSound(st, rank, n, c);
    RemoveChildInOrder(st, rank, n, c, now);
    LinkedClimbs(st', rank);
    SameWakeOf(st, st');
    QueueFrame(st, st', q);
  }

  /** `Children` of a round robin. */
  function RingChildren(b: Body): seq<Id>
    requires b.RoundRobin?
  {
    b.ready + b.waiting
  }

  lemma OnlyKid(st: Store, rank: map<Id, nat>, rr: Id)
    requires Linked(st, rank) && rr in st && st[rr].body.RoundRobin?
    ensures var children := RingChildren(st[rr].body);
      && (|children| == 0 ==> Kids(st[rr].body) == multiset{})
      && (|children| == 1 ==> Kids(st[rr].body) == multiset{children[0]} && children[0] in st && children[0] != rr)
  {
    var children := RingChildren(st[rr].body);
    assert Kids(st[rr].body) == multiset(children);
    if |children| == 1 {
      assert children == [children[0]];
      KidsInStore(st, rank, rr);
      assert children[0] in Kids(st[rr].body);
    }
  }

  lemma PrunedToNothing(st: Store, st': Store, n: Id, c: Id)
    requires n in st && c in st && c != n && Pruned(st, st', n, c) && st[n].body.RoundRobin? && st[n].parent.None?
    requires Kids(st[n].body) == multiset{c}
    ensures Kids(st'[n].body) == multiset{} && st'[n].body.RoundRobin? && st'[n].parent.None? && st'[c].parent.None?
  {
    assert PolicyOf(st'[n].body) == PolicyOf(st[n].body);
    var after := Kids(st'[n].body);
    forall d ensures after[d] == 0 {
      assert after[d] + multiset{c}[d] == multiset{c}[d];
    }
  }

  lemma ChildIffParent(st: Store, rank: map<Id, nat>, n: Id, c: Id)
    requires Linked(st, rank) && n in st && c in st
    ensures c in Kids(st[n].body) <==> st[c].parent == Some(n)
    ensures st[c].parent == Some(n) ==> c != n
  {
    assert LinkOk(st, rank, n) && LinkOk(st, rank, c);
  }

  lemma LinkedRanked(st: Store, rank: map<Id, nat>, c: Id)
    requires Linked(st, rank) && c in st
    ensures c in rank
  {
    assert LinkOk(st, rank, c);
  }

  /** An unblocked class is consistent as it is, and has no wakeup time. */
  lemma RunnableOk(st: Store, leaf: Id)
    requires AllOk(st) && IsRunnable(st, leaf) && st[leaf].body.Leaf?
    ensures OkIfUnblocked(st, leaf) && st[leaf].body.wakeup == 0
  {
    assert NodeOk(st, leaf);
    assert st[leaf := st[leaf].(blocked := false)] == st;
  }
}

/**
 What weighted-fair and rate-limit classes of a tree do to their queues and tokens, in terms of the steps
 whose fairness and bounds are proved in Stride and TokenBucket.
 */
module TcPolicies {
  import opened Wrappers
  import opened Stride
  import Granules
  import TokenBucket
  import opened TrafficClass
  import opened TcUnblock
  import opened TcBlock
  import opened TcAccount
  import opened TcTree
  import opened SchedulerSpec

  // ----- weighted-fair classes -----

  ghost function QueueOf(b: Body): Wfq
    requires b.WeightedFair?
  {
    Wfq(b.runnable, b.sleeping)
  }

  /** Accounting is one charge of the child that was picked. */
  lemma AccountIsCharge(st: Store, p: Id, c: Id, usage: Usage, tsc: nat, d: real)
    requires AccountReady(st, p, c) && InOrder(st[p].body, tsc) && st[p].body.WeightedFair?
    ensures var b := st[p].body;
      var delta := PassDelta(b.runnable[0], usage.Of(b.resource));
      var s := if IsBlocked(st, c) then ChargeAndBlock(delta) else Charge(delta);
      && b.runnable[0].c == c
      && (0.0 <= delta <= d ==> Possible(QueueOf(b), s, d))
      && (0.0 <= delta <= d ==> QueueOf(AccountNode(st, p, c, usage, tsc).body) == Next(QueueOf(b), s, d))
  {
  }

  /** The steps by which the unblocked children leave the blocked list, `kept` others being passed over first. */
  ghost function WakeSteps(st: Store, kept: nat, sleeping: seq<Entry>): seq<Step>
    decreases |sleeping|
  {
    if sleeping == [] then []
    else if IsBlocked(st, sleeping[0].c) then WakeSteps(st, kept + 1, sleeping[1..])
    else [Wake(kept)] + WakeSteps(st, kept, sleeping[1..])
  }

  ghost predicate Runs(w: Wfq, steps: seq<Step>, d: real, end: Wfq)
    decreases |steps|
  {
    if steps == [] then end == w
    else Possible(w, steps[0], d) && Runs(Next(w, steps[0], d), steps[1..], d, end)
  }

  /** `UnblockTowardsRoot` is a run of wake steps. */
  lemma {:induction false} UnblockIsWakes(st: Store, runnable: seq<Entry>, kept: seq<Entry>, sleeping: seq<Entry>, d: real)
    ensures Runs(Wfq(runnable, kept + sleeping), WakeSteps(st, |kept|, sleeping), d,
                 Wfq(JoinAwake(st, runnable, sleeping), kept + StillAsleep(st, sleeping)))
    decreases |sleeping|
  {
    if sleeping == [] {
      assert kept + [] == kept;
    } else {
      var e, rest := sleeping[0], sleeping[1..];
      if IsBlocked(st, e.c) {
        UnblockIsWakes(st, runnable, kept + [e], rest, d);
        assert (kept + [e]) + rest == kept + sleeping;
        assert (kept + [e]) + StillAsleep(st, rest) == kept + ([e] + StillAsleep(st, rest));
      } else {
        UnblockIsWakes(st, Rejoined(runnable, e), kept, rest, d);
        var w := Wfq(runnable, kept + sleeping);
        assert w.blocked[|kept|] == e && w.blocked[..|kept|] + w.blocked[|kept| + 1..] == kept + rest;
        var steps := WakeSteps(st, |kept|, sleeping);
        assert steps[0] == Wake(|kept|) && steps[1..] == WakeSteps(st, |kept|, rest);
        assert Next(w, steps[0], d) == Wfq(Rejoined(runnable, e), kept + rest);
        assert StillAsleep(st, sleeping) == StillAsleep(st, rest);
      }
    }
  }

  lemma {:induction false} RunKeepsSpread(w: Wfq, steps: seq<Step>, d: real, end: Wfq)
    requires Spread(w, d) && d >= 0.0 && Runs(w, steps, d, end)
    ensures Spread(end, d)
    decreases |steps|
  {
    if steps != [] {
      StepKeepsSpread(w, steps[0], d);
      RunKeepsSpread(Next(w, steps[0], d), steps[1..], d, end);
    }
  }

  /** Unblocking never spreads the passes of a weighted-fair class. */
  lemma UnblockKeepsSpread(st: Store, b: Body, tsc: nat, d: real)
    requires b.WeightedFair? && Spread(QueueOf(b), d) && d >= 0.0
    ensures Spread(QueueOf(UnblockBody(st, b, tsc)), d)
  {
    UnblockIsWakes(st, b.runnable, [], b.sleeping, d);
    assert [] + b.sleeping == b.sleeping && [] + StillAsleep(st, b.sleeping) == StillAsleep(st, b.sleeping);
    RunKeepsSpread(QueueOf(b), WakeSteps(st, 0, b.sleeping), d, QueueOf(UnblockBody(st, b, tsc)));
  }

  /**
   `BlockTowardsRoot` stores a pass where waking reads a penalty. The lists keep the spread exactly when that pass
   could be one; and waking the child later, into whatever queue, keeps the passes within `d` exactly when the
   queue is empty or the stored pass fits it.
   */
  lemma BlockKeepsSpreadIff(st: Store, b: Body, d: real, later: seq<Entry>)
    requires b.WeightedFair? && Spread(QueueOf(b), d) && FirstBlocked(st, b.runnable) < |b.runnable|
    requires Within(later, d) && d >= 0.0
    ensures var pass := b.runnable[FirstBlocked(st, b.runnable)].pass;
      var sleeping := BlockBody(st, b).sleeping;
      && (Spread(QueueOf(BlockBody(st, b)), d) <==> 0.0 <= pass <= d)
      && sleeping != []
      && (Within(Rejoined(later, sleeping[|sleeping| - 1]), d) <==>
            later == [] || later[|later| - 1].pass - NextPass(later) - d <= pass <= d)
  {
    var k := FirstBlocked(st, b.runnable);
    RemoveKeepsSpread(b.runnable, k, d);
    BlockedEntryKeepsSpreadIff(Wfq(b.runnable[..k] + b.runnable[k + 1..], b.sleeping), b.runnable[k], d);
    WakeKeepsWithinIff(later, b.runnable[k], d);
  }

  function TwoAt1000(resource: Resource, c: Id, top: Id): Body {
    WeightedFair(resource, [Entry(c, 1.0, 1000.0), Entry(top, 1.0, 1000.0)], [])
  }

  lemma BlockingStoresPass(st: Store, resource: Resource, c: Id, top: Id)
    requires IsBlocked(st, c) && IsRunnable(st, top)
    ensures Spread(QueueOf(TwoAt1000(resource, c, top)), 1.0)
    ensures BlockBody(st, TwoAt1000(resource, c, top))
         == WeightedFair(resource, [Entry(top, 1.0, 1000.0)], [Entry(c, 1.0, 1000.0)])
  {
    var b := TwoAt1000(resource, c, top);
    var q := b.runnable;
    assert FirstBlocked(st, q) == 0;
    assert q[..0] + q[1..] == [q[1]] && b.sleeping + [q[0]] == [q[0]];
  }

  lemma WakingReadsPenalty(st: Store, resource: Resource, c: Id, top: Id, tsc: nat)
    requires top != c && IsRunnable(st, c)
    ensures var b := WeightedFair(resource, [Entry(top, 1.0, 1000.0)], [Entry(c, 1.0, 1000.0)]);
      QueueOf(UnblockBody(st, b, tsc)) == LeftBehind(top, c)
  {
    var runnable, sleeping := [Entry(top, 1.0, 1000.0)], [Entry(c, 1.0, 1000.0)];
    var none: seq<Entry> := [];
    assert sleeping[1..] == none;
    AddBlockedLosesFairness(c, top);
    assert JoinAwake(st, runnable, sleeping) == JoinAwake(st, Rejoined(runnable, sleeping[0]), none);
    assert StillAsleep(st, sleeping) == none;
  }

  /**
   A child that blocks by way of `BlockTowardsRoot` at pass 1000 and wakes up again is a thousand behind, and the
   other child is then served more than twice the charge ahead of it.
   */
  lemma BlockRouteLosesFairness(asleep: Store, awake: Store, resource: Resource, c: Id, top: Id, tsc: nat)
    requires top != c && IsBlocked(asleep, c) && IsRunnable(asleep, top) && IsRunnable(awake, c)
    ensures var b := TwoAt1000(resource, c, top);
      && Spread(QueueOf(b), 1.0) && BlockBody(asleep, b).WeightedFair?
      && var woken := UnblockBody(awake, BlockBody(asleep, b), tsc);
         woken.WeightedFair? && UnfairRun(QueueOf(woken), [Charge(1.0), Charge(1.0), Charge(1.0)], top, c)
  {
    BlockingStoresPass(asleep, resource, c, top);
    WakingReadsPenalty(awake, resource, c, top, tsc);
    AddBlockedLosesFairness(c, top);
  }

  /**
   `AddChild` of a runnable child keeps the spread. A blocked one stores the least pass: the lists keep the spread
   exactly when that could be a penalty, and waking the child later keeps the passes within `d` exactly when the
   queue is empty by then or the stored pass fits it.
   */
  lemma AddKeepsSpreadIff(st: Store, n: Id, c: Id, link: Link, d: real, later: seq<Entry>)
    requires n in st && c in st && Fits(st[n].body, link) && !Refused(st, n, c, link) && st[n].body.WeightedFair?
    requires Spread(QueueOf(st[n].body), d) && d >= 0.0 && Within(later, d)
    ensures var pass := NextPass(st[n].body.runnable);
      var sleeping := AddedBody(st, n, c, link).sleeping;
      && (Spread(QueueOf(AddedBody(st, n, c, link)), d) <==> (st[c].blocked ==> 0.0 <= pass <= d))
      && (st[c].blocked ==> sleeping != [])
      && (st[c].blocked ==>
            (Within(Rejoined(later, sleeping[|sleeping| - 1]), d) <==>
               later == [] || later[|later| - 1].pass - NextPass(later) - d <= pass <= d))
  {
    var b := st[n].body;
    var e := Entry(c, StrideOf(link.share), NextPass(b.runnable));
    if st[c].blocked {
      BlockedEntryKeepsSpreadIff(QueueOf(b), e, d);
      WakeKeepsWithinIff(later, e, d);
    } else {
      StepKeepsSpread(QueueOf(b), Add(c, StrideOf(link.share)), d);
    }
  }

  /** Removing a child never spreads the passes. */
  lemma RemoveChildKeepsSpread(b: Body, c: Id, d: real)
    requires b.WeightedFair? && c in Kids(b) && Spread(QueueOf(b), d) && d >= 0.0
    ensures Spread(QueueOf(RemovedBody(b, c)), d)
  {
    RemovalIsStep(b, c, d);
    StepKeepsSpread(QueueOf(b), RemovalOf(b, c), d);
  }

  function RemovalOf(b: Body, c: Id): Step
    requires b.WeightedFair?
  {
    var i := IndexOf(EntryIds(b.sleeping), c);
    if i < |b.sleeping| then RemoveBlocked(i) else Remove(IndexOf(EntryIds(b.runnable), c))
  }

  lemma RemovalIsStep(b: Body, c: Id, d: real)
    requires b.WeightedFair? && c in Kids(b)
    ensures Possible(QueueOf(b), RemovalOf(b, c), d)
    ensures QueueOf(RemovedBody(b, c)) == Next(QueueOf(b), RemovalOf(b, c), d)
  {
    KidsOfWf(b, c);
  }

  // ----- rate limiters -----

  /** Accounting at a limiter is a possible token-bucket event, and so are unblocking and waking it. */
  lemma LimiterEvents(st: Store, p: Id, c: Id, usage: Usage, tsc: nat)
    requires p in st && st[p].body.RateLimit?
    ensures AccountReady(st, p, c) && InOrder(st[p].body, tsc) && tsc > 0 ==>
      var e := TokenBucket.Account(tsc, TokenBucket.ToWorkUnits(usage.Of(st[p].body.limited)));
      && TokenBucket.Possible(st[p].body.bucket, e)
      && AccountNode(st, p, c, usage, tsc).body.bucket == TokenBucket.Step(st[p].body.bucket, e)
    ensures UnblockBody(st, st[p].body, tsc).bucket == TokenBucket.Step(st[p].body.bucket, TokenBucket.ChildUnblocked(tsc))
    ensures WakeOf(st, p) != 0 ==>
      && TokenBucket.Possible(st[p].body.bucket, TokenBucket.Wake)
      && UnblockNode(Cleared(st, p), p, WakeOf(st, p)).body.bucket == TokenBucket.Step(st[p].body.bucket, TokenBucket.Wake)
  {
    if AccountReady(st, p, c) {
      assert !HeldBack(st[c := st[c].(blocked := false)], st[p].body.bucket, st[p].body.child);
    }
  }

  /**
   After accounting, a limiter is blocked for a reason that can pass exactly when it has a positive limit, or
   has not exceeded its tokens, or its child is blocked: with limit 0 an exceeded limiter stays blocked,
   with no wakeup time, above a runnable child.
   */
  lemma LimiterHeldIff(st: Store, p: Id, c: Id, usage: Usage, tsc: nat)
    requires AccountReady(st, p, c) && InOrder(st[p].body, tsc) && st[p].body.RateLimit? && tsc > 0
    ensures var bucket := st[p].body.bucket;
      var x := AccountNode(st, p, c, usage, tsc);
      (x.blocked <==> HeldBack(st, x.body.bucket, x.body.child))
        <==>
      (bucket.limit > 0 || !TokenBucket.Exceeds(bucket, tsc, TokenBucket.ToWorkUnits(usage.Of(st[p].body.limited)))
       || IsBlocked(st, c))
  {
    assert !HeldBack(st[c := st[c].(blocked := false)], st[p].body.bucket, st[p].body.child);
  }

  /**
   An instance: class 1 has limit 0 and no tokens, and its child 2 has used one unit. It ends up blocked, not
   throttled, and never on the wakeup queue, although its child is runnable.
   */
  lemma ZeroLimitStaysBlocked(st: Store, maxBurst: nat, tsc: nat)
    requires tsc > 0 && st == map[
      1 := Node(None, false, RateLimit(Count, TokenBucket.Bucket(0, maxBurst, 0, 0, 0), Some(2))),
      2 := Node(Some(1), false, Leaf(INITIAL_WAIT, 0))]
    ensures AccountReady(st, 1, 2) && InOrder(st[1].body, tsc) && IsRunnable(st, 2)
    ensures var x := AccountNode(st, 1, 2, Usage(1, 0, 0, 0), tsc);
      x.blocked && WakeupTime(x.body) == 0 && !HeldBack(st, x.body.bucket, x.body.child)
      && !Throttles(st[1].body, Usage(1, 0, 0, 0), tsc)
  {
    assert Kids(st[1].body) == multiset{2};
    Granules.TimesIsProduct(tsc, 0);
  }
}

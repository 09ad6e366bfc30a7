/**
 The token bucket of a rate limiter inside a tree (bess/core/traffic_class.cc:476-521, bess/core/scheduler.h:106-120):
 over any run of operations anywhere in the tree, its tokens change by the events of TokenBucket and by no others.
 */
module TcTokens {
  import opened Wrappers
  import Stride
  import opened TokenBucket
  import opened TrafficClass
  import opened TcUnblock
  import opened TcBlock
  import opened TcAccount
  import opened TcTree
  import opened SchedulerSpec
  import opened TcWalks

  // ----- one update is one event, or none -----

  /** The work units that a limiter on resource `r` is charged for. */
  function WorkOf(usage: Usage, r: Resource): (work: nat)
    ensures work == 0x1_0000_0000 * (match r
                                     case Count => usage.count
                                     case Cycle => usage.cycles
                                     case Packet => usage.packets
                                     case Bit => usage.bits)
  {
    ToWorkUnits(usage.Of(r))
  }

  /** The event that an update of a limiter on resource `r` is; blocking and listing children are none. */
  function EventsOf(u: Update, r: Resource): seq<Event> {
    match u
    case Accounted(_, _, usage, at) => [TokenBucket.Account(at, WorkOf(usage, r))]
    case Unblocked(_, at) => [ChildUnblocked(at)]
    case Woken(_, _) => [TokenBucket.Wake]
    case Blocked(_) => []
    case Listed(_, _, _) => []
    case Unlisted(_) => []
  }

  function AllEventsOf(us: seq<Update>, r: Resource): seq<Event> {
    if us == [] then [] else EventsOf(us[0], r) + AllEventsOf(us[1..], r)
  }

  /** The bucket of `b'` is that of `b` after these events, and the limited resource stays. */
  ghost predicate Follows(b: Body, events: seq<Event>, b': Body) {
    && b.RateLimit? && b'.RateLimit? && b'.limited == b.limited
    && AllPossible(b.bucket, events) && Run(b.bucket, events).end == b'.bucket
  }

  lemma {:induction false} RunAppends(b: Bucket, events: seq<Event>, more: seq<Event>)
    requires AllPossible(b, events) && AllPossible(Run(b, events).end, more)
    ensures AllPossible(b, events + more)
    ensures var t, rest := Run(b, events), Run(Run(b, events).end, more);
      Run(b, events + more) == Tally(rest.end, t.work + rest.work, t.throttles + rest.throttles, t.rewound + rest.rewound)
    decreases |events|
  {
    if events == [] {
      assert events + more == more;
    } else {
      assert (events + more)[0] == events[0] && (events + more)[1..] == events[1..] + more;
      RunAppends(Step(b, events[0]), events[1..], more);
    }
  }

  lemma OneEvent(b: Bucket, e: Event)
    requires Possible(b, e)
    ensures AllPossible(b, [e]) && Run(b, [e]) == StepTally(b, e)
  {
    assert [e][1..] == [];
    assert Run(Step(b, e), []) == Tally(Step(b, e), 0, 0, 0);
  }

  lemma UpdateIsEvent(p: Id, b: Body, u: Update)
    requires b.RateLimit? && Applicable(p, b, u)
    ensures Follows(b, EventsOf(u, b.limited), Updated(p, b, u))
  {
    match u
    case Accounted(st, kid, usage, at) =>
      assert !HeldBack(st[kid := st[kid].(blocked := false)], b.bucket, b.child);
      OneEvent(b.bucket, TokenBucket.Account(at, WorkOf(usage, b.limited)));
    case Unblocked(_, at) => OneEvent(b.bucket, ChildUnblocked(at));
    case Woken(_, _) => OneEvent(b.bucket, TokenBucket.Wake);
    case Blocked(_) =>
    case Listed(_, _, _) =>
    case Unlisted(_) =>
  }

  lemma {:induction false} UpdatesAreEvents(p: Id, b: Body, us: seq<Update>)
    requires b.RateLimit? && AllApplicable(p, b, us)
    ensures Follows(b, AllEventsOf(us, b.limited), AllUpdated(p, b, us))
    decreases |us|
  {
    if us != [] {
      UpdateIsEvent(p, b, us[0]);
      UpdatesAreEvents(p, Updated(p, b, us[0]), us[1..]);
      RunAppends(b.bucket, EventsOf(us[0], b.limited), AllEventsOf(us[1..], b.limited));
    }
  }

  // ----- waking -----

  /** The time from which a limiter counts its tokens, after updates by waking. */
  lemma {:induction false} CountsFrom(p: Id, b: Body, us: seq<Update>)
    requires b.RateLimit? && AllApplicable(p, b, us)
    requires forall i :: 0 <= i < |us| ==> us[i].Unblocked? || us[i].Woken?
    ensures var b' := AllUpdated(p, b, us);
      && b'.RateLimit? && b'.limited == b.limited && b'.child == b.child
      && b'.bucket.tokens == b.bucket.tokens && b'.bucket.limit == b.bucket.limit && b'.bucket.maxBurst == b.bucket.maxBurst
      && b'.bucket.lastTsc == (if us == [] then b.bucket.lastTsc else us[|us| - 1].at)
      && (b'.bucket.wakeup != b.bucket.wakeup ==> exists i :: 0 <= i < |us| && us[i].Woken? && us[i].at == b.bucket.wakeup)
    decreases |us|
  {
    if us != [] {
      var b1 := Updated(p, b, us[0]);
      CountsFrom(p, b1, us[1..]);
      if b1.bucket.wakeup == b.bucket.wakeup && AllUpdated(p, b, us).bucket.wakeup != b.bucket.wakeup {
        var i :| 0 <= i < |us[1..]| && us[1..][i].Woken? && us[1..][i].at == b1.bucket.wakeup;
        assert us[i + 1] == us[1..][i];
      }
    }
  }

  /**
   `WakeTCs` leaves tokens, limit and burst of every limiter alone. A limiter goes on counting from where it did, or
   from the wakeup time of a class woken in this call that is itself or lies below it. One that was itself woken counts
   from its own wakeup time or later, and never from a time that has not passed.
   */
  lemma WakingCountsFrom(st: Store, rank: map<Id, nat>, q: seq<Id>, until: nat, p: Id)
    requires Linked(st, rank) && Climbs(st, rank) && AllOk(st) && QueueOk(st, q) && p in st && st[p].body.RateLimit?
    ensures p in WakeDue(st, rank, q, until) && WakeDue(st, rank, q, until)[p].body.RateLimit?
    ensures var b, b' := st[p].body.bucket, WakeDue(st, rank, q, until)[p].body.bucket;
      && b'.tokens == b.tokens && b'.limit == b.limit && b'.maxBurst == b.maxBurst
      && (b'.lastTsc == b.lastTsc || exists d :: WokenBelow(st, rank, d, until, p) && b'.lastTsc == WakeOf(st, d))
      && (0 < b.wakeup < until ==> b'.wakeup == 0 && b.wakeup <= b'.lastTsc < until)
      && (0 < b.wakeup < until && (forall d :: WokenBelow(st, rank, d, until, p) ==> d == p) ==> b'.lastTsc == b.wakeup)
  {
    var us := WakeUpdates(st, rank, q, until, p);
    forall i | 0 <= i < |us|
      ensures us[i].Unblocked? || us[i].Woken?
      ensures exists d :: WokenBelow(st, rank, d, until, p) && us[i].at == WakeOf(st, d)
    {
      assert WakingUpdate(st, rank, until, p, us[i]);
      assert us[i].Woken? ==> WokenBelow(st, rank, p, until, p);
    }
    CountsFrom(p, st[p].body, us);
    var b, b' := st[p].body.bucket, WakeDue(st, rank, q, until)[p].body.bucket;
    WakeDueSound(st, rank, q, until);
    assert WakeOf(WakeDue(st, rank, q, until), p) == b'.wakeup && WakeOf(st, p) == b.wakeup;
    if 0 < b.wakeup < until {
      var i :| 0 <= i < |us| && us[i].Woken? && us[i].at == b.wakeup;
      assert us[i].at <= us[|us| - 1].at;
    }
  }

  /**
   The same for `UnblockTowardsRoot` from class `n` at time `at`: a limiter that is `n`, or that becomes unblocked,
   counts from `at`; any other from `at` or from where it did.
   */
  lemma UnblockingCountsFrom(x: Call, p: Id)
    requires Callable(x) && x.op.Unblock? && p in x.st && p in x.rank && x.st[p].body.RateLimit?
    ensures p in Outcome(x) && Outcome(x)[p].body.RateLimit?
    ensures var b, b' := x.st[p].body.bucket, Outcome(x)[p].body.bucket;
      && b'.(lastTsc := b.lastTsc) == b && (b'.lastTsc == b.lastTsc || b'.lastTsc == x.op.at)
      && (x.op.from == p || (x.st[p].blocked && !Outcome(x)[p].blocked) ==> b'.lastTsc == x.op.at)
  {
    var us := OperationUpdates(x, p);
    if us != [] {
      assert us[1..] == [];
      assert AllUpdated(p, x.st[p].body, us) == Updated(p, x.st[p].body, us[0]);
    }
  }

  // ----- runs of operations on the tree -----

  /** The work charged to limiter `p` by an operation: what the leaf used, if that leaf lies below. */
  ghost function WorkAt(x: Call, p: Id): nat
    requires Callable(x) && p in x.st
  {
    if x.op.Finish? && OnPath(x.st, x.rank, x.op.leaf, p) && x.st[p].body.RateLimit?
    then WorkOf(x.op.usage, x.st[p].body.limited) else 0
  }

  /** A run at limiter `p`, whose tokens are in `body`; anything may happen elsewhere between the operations. */
  ghost predicate LimiterRun(p: Id, body: Body, calls: seq<Call>)
    decreases |calls|
  {
    && body.RateLimit?
    && (calls == [] ||
        (&& Callable(calls[0]) && p in calls[0].st && p in calls[0].rank && calls[0].st[p].body == body
         && p in Outcome(calls[0]) && LimiterRun(p, Outcome(calls[0])[p].body, calls[1..])))
  }

  ghost function LimiterEnd(p: Id, body: Body, calls: seq<Call>): Body
    requires LimiterRun(p, body, calls)
    decreases |calls|
  {
    if calls == [] then body else LimiterEnd(p, Outcome(calls[0])[p].body, calls[1..])
  }

  ghost function TotalWork(p: Id, body: Body, calls: seq<Call>): nat
    requires LimiterRun(p, body, calls)
    decreases |calls|
  {
    if calls == [] then 0 else WorkAt(calls[0], p) + TotalWork(p, Outcome(calls[0])[p].body, calls[1..])
  }

  /** Whether the operation throttles the limiter. */
  ghost function ThrottlesAt(x: Call, p: Id): nat
    requires Callable(x) && p in x.st
  {
    if x.op.Finish? && OnPath(x.st, x.rank, x.op.leaf, p) && Throttles(x.st[p].body, x.op.usage, x.op.now) then 1 else 0
  }

  /** How often the limiter was throttled in the run. */
  ghost function TotalThrottles(p: Id, body: Body, calls: seq<Call>): nat
    requires LimiterRun(p, body, calls)
    decreases |calls|
  {
    if calls == [] then 0
    else ThrottlesAt(calls[0], p) + TotalThrottles(p, Outcome(calls[0])[p].body, calls[1..])
  }

  /** The events of one operation at the limiter: what was charged and when, or when it was unblocked or woken. */
  ghost predicate EventsFit(x: Call, p: Id, events: seq<Event>)
    requires Callable(x) && p in x.st && x.st[p].body.RateLimit?
  {
    match x.op
    case Finish(leaf, usage, now) =>
      events == if OnPath(x.st, x.rank, leaf, p) then [TokenBucket.Account(now, WorkOf(usage, x.st[p].body.limited))] else []
    case Unblock(from, at) => events == [ChildUnblocked(at)] || (events == [] && from != p)
    case Wake(_, until) =>
      forall i :: 0 <= i < |events| ==>
        (events[i].Wake? && 0 < WakeOf(x.st, p) < until)
        || (events[i].ChildUnblocked? && exists d :: WokenBelow(x.st, x.rank, d, until, p) && events[i].tsc == WakeOf(x.st, d))
    case Add(n, _, _, at) => events == [ChildUnblocked(at)] || (events == [] && n != p)
    case Remove(_, _) => events == []
  }

  /** The events are those of the operations, one after the other. */
  ghost predicate RunFits(p: Id, body: Body, calls: seq<Call>, events: seq<Event>)
    requires LimiterRun(p, body, calls)
    decreases |calls|
  {
    if calls == [] then events == []
    else
      exists k :: 0 <= k <= |events| && EventsFit(calls[0], p, events[..k])
        && RunFits(p, Outcome(calls[0])[p].body, calls[1..], events[k..])
  }

  lemma {:induction false} WakingEvents(st: Store, rank: map<Id, nat>, until: nat, p: Id, us: seq<Update>, r: Resource)
    requires Climbs(st, rank) && forall i :: 0 <= i < |us| ==> WakingUpdate(st, rank, until, p, us[i])
    ensures var events := AllEventsOf(us, r);
      && |events| == |us|
      && forall i :: 0 <= i < |events| ==>
           (events[i].Wake? && 0 < WakeOf(st, p) < until)
           || (events[i].ChildUnblocked? && exists d :: WokenBelow(st, rank, d, until, p) && events[i].tsc == WakeOf(st, d))
    decreases |us|
  {
    if us != [] {
      assert WakingUpdate(st, rank, until, p, us[0]);
      WakingEvents(st, rank, until, p, us[1..], r);
    }
  }

  lemma EventsOfOne(u: Update, r: Resource)
    ensures AllEventsOf([u], r) == EventsOf(u, r)
  {
    assert [u][1..] == [];
  }

  lemma EventsOfTwo(u: Update, v: Update, r: Resource)
    ensures AllEventsOf([u, v], r) == EventsOf(u, r) + EventsOf(v, r)
  {
    assert [u, v][1..] == [v];
    EventsOfOne(v, r);
  }

  /** The updates that an operation makes at a limiter, as events. */
  lemma FittingEvents(x: Call, p: Id, us: seq<Update>)
    requires Callable(x) && p in x.st && p in Outcome(x) && x.st[p].body.RateLimit? && Fitting(x, p, us)
    ensures EventsFit(x, p, AllEventsOf(us, x.st[p].body.limited))
  {
    var r := x.st[p].body.limited;
    if x.op.Wake? {
      WakingEvents(x.st, x.rank, x.op.until, p, us, r);
    } else if |us| == 1 {
      assert us == [us[0]];
      EventsOfOne(us[0], r);
    } else if |us| == 2 {
      assert us == [us[0], us[1]];
      EventsOfTwo(us[0], us[1], r);
    }
  }

  /** Only accounting is work, and only accounting throttles. */
  lemma {:induction false} NoWork(b: Bucket, events: seq<Event>)
    requires AllPossible(b, events) && forall i :: 0 <= i < |events| ==> !events[i].Account?
    ensures Run(b, events).work == 0 && Run(b, events).throttles == 0
    decreases |events|
  {
    if events != [] {
      NoWork(Step(b, events[0]), events[1..]);
    }
  }

  /** Any operation on the tree acts on a limiter by possible events, at the times and with the usage it was called with. */
  lemma OperationIsEvents(x: Call, p: Id) returns (events: seq<Event>)
    requires Callable(x) && p in x.st && p in x.rank && x.st[p].body.RateLimit?
    ensures p in Outcome(x) && Follows(x.st[p].body, events, Outcome(x)[p].body) && EventsFit(x, p, events)
  {
    var us := OperationUpdates(x, p);
    UpdatesAreEvents(p, x.st[p].body, us);
    FittingEvents(x, p, us);
    events := AllEventsOf(us, x.st[p].body.limited);
  }

  lemma OperationWork(x: Call, p: Id, events: seq<Event>)
    requires Callable(x) && p in x.st && p in Outcome(x) && x.st[p].body.RateLimit?
    requires Follows(x.st[p].body, events, Outcome(x)[p].body) && EventsFit(x, p, events)
    ensures var t := Run(x.st[p].body.bucket, events);
      t.work == WorkAt(x, p) && (x.st[p].body.bucket.limit > 0 ==> t.throttles == ThrottlesAt(x, p))
  {
    var b := x.st[p].body.bucket;
    if x.op.Finish? && OnPath(x.st, x.rank, x.op.leaf, p) {
      assert events[0].Account? && events == [events[0]];
      OneEvent(b, events[0]);
    } else {
      NoWork(b, events);
    }
  }

  lemma CountsAppend(b: Bucket, first: seq<Event>, rest: seq<Event>, b1: Bucket, end: Bucket)
    requires AllPossible(b, first) && Run(b, first).end == b1 && AllPossible(b1, rest) && Run(b1, rest).end == end
    ensures AllPossible(b, first + rest) && Run(b, first + rest).end == end
    ensures Run(b, first + rest).work == Run(b, first).work + Run(b1, rest).work
    ensures Run(b, first + rest).throttles == Run(b, first).throttles + Run(b1, rest).throttles
  {
    RunAppends(b, first, rest);
  }

  /**
   Over any run of accounting, unblocking, waking, adding and removing anywhere in the tree, the tokens of a limiter
   change by a possible run of events in which exactly the work of the leaves below it is charged.
   */
  lemma {:induction false} RunIsEvents(p: Id, body: Body, calls: seq<Call>) returns (events: seq<Event>)
    requires LimiterRun(p, body, calls) && body.bucket.limit > 0
    ensures Follows(body, events, LimiterEnd(p, body, calls)) && RunFits(p, body, calls, events)
    ensures var t := Run(body.bucket, events);
      t.work == TotalWork(p, body, calls) && t.throttles == TotalThrottles(p, body, calls)
    decreases |calls|
  {
    events := [];
    if calls != [] {
      var x := calls[0];
      var first := OperationIsEvents(x, p);
      OperationWork(x, p, first);
      var b1 := Outcome(x)[p].body;
      RunPaid(body.bucket, first);
      var rest := RunIsEvents(p, b1, calls[1..]);
      CountsAppend(body.bucket, first, rest, b1.bucket, LimiterEnd(p, b1, calls[1..]).bucket);
      events := first + rest;
      assert events[..|first|] == first && events[|first|..] == rest;
    }
  }

  /**
   Hence the work of the leaves below a limiter is bounded in the tree: tokens, the limit times the cycles up to the end
   of the last wait (and those by which nested wakeups set the clock back), and one limit per throttling pay for it;
   and but for skipped cycles and cut-off tokens nothing of that is lost.
   */
  lemma LimiterBoundsTree(p: Id, body: Body, calls: seq<Call>) returns (events: seq<Event>)
    requires LimiterRun(p, body, calls) && body.bucket.limit > 0
    ensures RunFits(p, body, calls, events) && AllPossible(body.bucket, events) && LimiterEnd(p, body, calls).RateLimit?
    ensures var b, t := body.bucket, Run(body.bucket, events);
      && t == Tally(LimiterEnd(p, body, calls).bucket, TotalWork(p, body, calls), TotalThrottles(p, body, calls), t.rewound)
      && Paid(b, t) && Earned(b, t, RunSkipped(b, events), RunCutOff(b, events))
      && (NoRewind(b, events) ==> t.rewound == 0)
  {
    events := RunIsEvents(p, body, calls);
    RunPaid(body.bucket, events);
    RunEarned(body.bucket, events);
    RunPaidByTimeIff(body.bucket, events);
  }
}

/**
 What the operations on a tree do at one class: the walks towards the root (bess/core/traffic_class.h:231-253,
 bess/core/traffic_class.cc), and waking (bess/core/scheduler.h:106-120).
 */
module TcWalks {
  import opened Wrappers
  import opened Stride
  import TokenBucket
  import opened TrafficClass
  import opened TcUnblock
  import opened TcBlock
  import opened TcAccount
  import opened TcTree
  import opened SchedulerSpec

  // ----- what the walks towards the root do at one class -----

  /** Class `p` lies above `n`. */
  ghost predicate OnPath(st: Store, rank: map<Id, nat>, n: Id, p: Id)
    requires Climbs(st, rank) && n in st
    decreases Above(rank, n)
  {
    st[n].parent.Some? &&
    var q := st[n].parent.value;
    AboveShrinks(rank, n, q);
    q == p || OnPath(st, rank, q, p)
  }

  lemma {:induction false} OnPathFrame(st: Store, st': Store, rank: map<Id, nat>, n: Id, p: Id)
    requires Climbs(st, rank) && Climbs(st', rank) && n in st && st'.Keys == st.Keys
    requires forall m :: m in st ==> st'[m].parent == st[m].parent
    ensures OnPath(st', rank, n, p) == OnPath(st, rank, n, p)
    decreases Above(rank, n)
  {
    if st[n].parent.Some? {
      AboveShrinks(rank, n, st[n].parent.value);
      OnPathFrame(st, st', rank, st[n].parent.value, p);
    }
  }

  /** Accounting leaves the classes that are not above `n` as they are. */
  lemma {:induction false} FinishUpElsewhere(st: Store, rank: map<Id, nat>, n: Id, usage: Usage, tsc: nat, x: Id)
    requires Climbs(st, rank) && n in st && n in rank && PathReady(st, rank, n) && AllInOrder(st, tsc)
    requires x in st && x !in Above(rank, n)
    ensures x in FinishUp(st, rank, n, usage, tsc) && FinishUp(st, rank, n, usage, tsc)[x] == st[x]
    decreases Above(rank, n)
  {
    if st[n].parent.Some? {
      var p := st[n].parent.value;
      OneStepUp(st, rank, n, usage, tsc);
      AboveShrinks(rank, n, p);
      FinishUpElsewhere(st[p := AccountNode(st, p, n, usage, tsc)], rank, p, usage, tsc, x);
    }
  }

  /** A class above the leaf accounts once, for the child it picked; the others are left alone. */
  lemma {:induction false} FinishUpAt(st: Store, rank: map<Id, nat>, n: Id, usage: Usage, tsc: nat, p: Id)
    returns (st1: Store, c: Id)
    requires Linked(st, rank) && Climbs(st, rank) && n in st && PathReady(st, rank, n) && AllInOrder(st, tsc) && tsc > 0
    requires OkIfUnblocked(st, n) && p in st && p != n
    ensures p in FinishUp(st, rank, n, usage, tsc)
    ensures var x := FinishUp(st, rank, n, usage, tsc)[p];
      if !OnPath(st, rank, n, p) then x == st[p]
      else
        && p in st1 && st1[p] == st[p] && AccountReady(st1, p, c) && InOrder(st1[p].body, tsc)
        && x == AccountNode(st1, p, c, usage, tsc)
    decreases Above(rank, n)
  {
    st1, c := st, n;
    if st[n].parent.Some? {
      var q := st[n].parent.value;
      OneStepUp(st, rank, n, usage, tsc);
      AccountStarts(st, rank, n);
      var x := AccountNode(st, q, n, usage, tsc);
      var st' := st[q := x];
      AboveShrinks(rank, n, q);
      AccountNodeSound(st, q, n, usage, tsc);
      if q == p {
        FinishUpElsewhere(st', rank, q, usage, tsc, q);
      } else {
        AccountMovesUp(st, rank, n, q, x);
        TreeShape(st, rank, q, x);
        OnPathFrame(st, st', rank, q, p);
        st1, c := FinishUpAt(st', rank, q, usage, tsc, p);
      }
    }
  }

  lemma {:induction false} UnblockUpElsewhere(st: Store, rank: map<Id, nat>, n: Id, tsc: nat, x: Id)
    requires Climbs(st, rank) && n in st && n in rank && x in st && x != n && x !in Above(rank, n)
    ensures x in UnblockUp(st, rank, n, tsc) && UnblockUp(st, rank, n, tsc)[x] == st[x]
    decreases Above(rank, n)
  {
    var y := UnblockNode(st, n, tsc);
    if y.parent.Some? && !y.blocked && st[n].blocked {
      AboveShrinks(rank, n, y.parent.value);
      ClimbsFrame(st, rank, n, y);
      UnblockUpElsewhere(st[n := y], rank, y.parent.value, tsc, x);
    }
  }

  /** Unblocking updates a class at most once, from its own fields. */
  lemma {:induction false} UnblockUpAt(st: Store, rank: map<Id, nat>, n: Id, tsc: nat, p: Id)
    returns (st1: Store, hit: bool)
    requires Climbs(st, rank) && n in st && n in rank && p in st
    ensures p in UnblockUp(st, rank, n, tsc) && p in st1 && st1[p] == st[p]
    ensures UnblockUp(st, rank, n, tsc)[p] == if hit then UnblockNode(st1, p, tsc) else st[p]
    ensures n == p ==> hit && st1 == st
    ensures hit ==> n == p || OnPath(st, rank, n, p)
    decreases Above(rank, n)
  {
    st1, hit := st, n == p;
    var y := UnblockNode(st, n, tsc);
    if y.parent.Some? && !y.blocked && st[n].blocked {
      var q := y.parent.value;
      AboveShrinks(rank, n, q);
      ClimbsFrame(st, rank, n, y);
      if n == p {
        UnblockUpElsewhere(st[n := y], rank, q, tsc, p);
      } else {
        st1, hit := UnblockUpAt(st[n := y], rank, q, tsc, p);
        OnPathFrame(st, st[n := y], rank, q, p);
      }
    }
  }

  lemma {:induction false} BlockUpElsewhere(st: Store, rank: map<Id, nat>, n: Id, x: Id)
    requires Climbs(st, rank) && n in st && n in rank && x in st && x != n && x !in Above(rank, n)
    ensures x in BlockUp(st, rank, n) && BlockUp(st, rank, n)[x] == st[x]
    decreases Above(rank, n)
  {
    var y := BlockNode(st, n);
    if y.parent.Some? && y.blocked && !st[n].blocked {
      AboveShrinks(rank, n, y.parent.value);
      ClimbsFrame(st, rank, n, y);
      BlockUpElsewhere(st[n := y], rank, y.parent.value, x);
    }
  }

  /**
   Blocking updates a class at most once, from its own fields, and leaves the classes that are not above it as they
   were when it did.
   */
  lemma {:induction false} BlockUpAt(st: Store, rank: map<Id, nat>, n: Id, p: Id) returns (st1: Store, hit: bool)
    requires Climbs(st, rank) && n in st && n in rank && p in st && p in rank
    ensures p in BlockUp(st, rank, n) && p in st1 && st1[p] == st[p]
    ensures BlockUp(st, rank, n)[p] == if hit then BlockNode(st1, p) else st[p]
    ensures n == p ==> hit && st1 == st
    ensures hit ==> forall k :: k in BlockUp(st, rank, n) && k != p && k !in Above(rank, p) ==>
      k in st1 && BlockUp(st, rank, n)[k] == st1[k]
    decreases Above(rank, n)
  {
    st1, hit := st, n == p;
    var y := BlockNode(st, n);
    BlockUpKeys(st, rank, n);
    if y.parent.Some? && y.blocked && !st[n].blocked {
      var q := y.parent.value;
      AboveShrinks(rank, n, q);
      ClimbsFrame(st, rank, n, y);
      if n == p {
        forall k | k in st && k !in Above(rank, p) ensures BlockUp(st, rank, n)[k] == st[n := y][k] {
          BlockUpElsewhere(st[n := y], rank, q, k);
        }
      } else {
        st1, hit := BlockUpAt(st[n := y], rank, q, p);
      }
    }
  }

  lemma {:induction false} BlockUpKeys(st: Store, rank: map<Id, nat>, n: Id)
    requires Climbs(st, rank) && n in st && n in rank
    ensures BlockUp(st, rank, n).Keys == st.Keys
    decreases Above(rank, n)
  {
    var y := BlockNode(st, n);
    if y.parent.Some? && y.blocked && !st[n].blocked {
      AboveShrinks(rank, n, y.parent.value);
      ClimbsFrame(st, rank, n, y);
      BlockUpKeys(st[n := y], rank, y.parent.value);
    }
  }

  // ----- runs of operations on the tree -----

  datatype TreeOp =
    | Finish(leaf: Id, usage: Usage, now: nat)        // a leaf has run, and may have become blocked
    | Unblock(from: Id, at: nat)                      // a class below a parent was unblocked
    | Wake(queue: seq<Id>, until: nat)                // the classes on the wakeup queue whose time has passed
    | Add(parent: Id, child: Id, link: Link, when: nat)
    | Remove(parent: Id, child: Id)

  /** An operation on the tree as it is when the operation is called. */
  datatype Call = Call(st: Store, rank: map<Id, nat>, op: TreeOp)

  ghost predicate Callable(x: Call) {
    && Linked(x.st, x.rank) && Climbs(x.st, x.rank)
    && match x.op
       case Finish(leaf, _, now) =>
         && leaf in x.st && PathReady(x.st, x.rank, leaf) && OkIfUnblocked(x.st, leaf) && x.st[leaf].body.Leaf?
         && AllInOrder(x.st, now) && now > 0
       case Unblock(from, _) => from in x.st && from in x.rank
       case Wake(queue, _) => AllOk(x.st) && QueueOk(x.st, queue)
       case Add(n, c, link, _) =>
         && n in x.st && c in x.st && c != n && Fits(x.st[n].body, link) && !Refused(x.st, n, c, link)
         && n in x.rank && c in x.rank && x.rank[c] < x.rank[n]
       case Remove(n, c) => n in x.st && n in x.rank && c in x.st && c != n && c in Kids(x.st[n].body) && AllOk(x.st)
  }

  ghost function Outcome(x: Call): Store
    requires Callable(x)
  {
    match x.op
    case Finish(leaf, usage, now) => FinishUp(x.st, x.rank, leaf, usage, now)
    case Unblock(from, at) => UnblockUp(x.st, x.rank, from, at)
    case Wake(queue, until) => WakeDue(x.st, x.rank, queue, until)
    case Add(n, c, link, at) => AddChildTo(x.st, x.rank, n, c, link, at)
    case Remove(n, c) => RemoveChildFrom(x.st, x.rank, n, c)
  }

  // ----- the same, seen from one class -----

  /** What may happen to the lists and tokens of one class, in a tree as it is at that moment. */
  datatype Update =
    | Accounted(st: Store, kid: Id, usage: Usage, at: nat)
    | Unblocked(st: Store, at: nat)
    | Woken(st: Store, at: nat)                       // taken off the wakeup queue, and unblocked
    | Blocked(st: Store)
    | Listed(st: Store, kid: Id, link: Link)
    | Unlisted(kid: Id)

  ghost predicate Applicable(p: Id, b: Body, u: Update) {
    match u
    case Accounted(st, kid, _, at) => AccountReady(st, p, kid) && st[p].body == b && InOrder(b, at) && at > 0
    case Unblocked(_, _) => true
    case Woken(_, at) => at == WakeupTime(b) != 0
    case Blocked(_) => true
    case Listed(st, kid, link) => p in st && kid in st && st[p].body == b && Fits(b, link) && !Refused(st, p, kid, link)
    case Unlisted(kid) => kid in Kids(b)
  }

  ghost function Updated(p: Id, b: Body, u: Update): Body
    requires Applicable(p, b, u)
  {
    match u
    case Accounted(st, kid, usage, at) => AccountNode(st, p, kid, usage, at).body
    case Unblocked(st, at) => UnblockBody(st, b, at)
    case Woken(st, at) => UnblockBody(st, ClearWakeup(b), at)
    case Blocked(st) => BlockBody(st, b)
    case Listed(st, kid, link) => AddedBody(st, p, kid, link)
    case Unlisted(kid) => RemovedBody(b, kid)
  }

  ghost predicate AllApplicable(p: Id, b: Body, us: seq<Update>)
    decreases |us|
  {
    us == [] || (Applicable(p, b, us[0]) && AllApplicable(p, Updated(p, b, us[0]), us[1..]))
  }

  ghost function AllUpdated(p: Id, b: Body, us: seq<Update>): Body
    requires AllApplicable(p, b, us)
    decreases |us|
  {
    if us == [] then b else AllUpdated(p, Updated(p, b, us[0]), us[1..])
  }

  lemma UpdateFirst(p: Id, b: Body, u: Update, us: seq<Update>)
    requires Applicable(p, b, u) && AllApplicable(p, Updated(p, b, u), us)
    ensures AllApplicable(p, b, [u] + us) && AllUpdated(p, b, [u] + us) == AllUpdated(p, Updated(p, b, u), us)
  {
    assert ([u] + us)[1..] == us;
  }

  lemma OneUpdate(p: Id, b: Body, u: Update)
    requires Applicable(p, b, u)
    ensures AllApplicable(p, b, [u]) && AllUpdated(p, b, [u]) == Updated(p, b, u)
  {
    assert [u][1..] == [];
  }

  lemma TwoUpdates(p: Id, b: Body, u: Update, v: Update)
    requires Applicable(p, b, u) && Applicable(p, Updated(p, b, u), v)
    ensures AllApplicable(p, b, [u, v]) && AllUpdated(p, b, [u, v]) == Updated(p, Updated(p, b, u), v)
  {
    OneUpdate(p, Updated(p, b, u), v);
    UpdateFirst(p, b, u, [v]);
    assert [u] + [v] == [u, v];
  }

  /** Class `d` is woken before `until`, and is `p` or lies below it. */
  ghost predicate WokenBelow(st: Store, rank: map<Id, nat>, d: Id, until: nat, p: Id)
    requires Climbs(st, rank)
  {
    d in st && 0 < WakeOf(st, d) < until && (d == p || OnPath(st, rank, d, p))
  }

  /** One of the updates of class `p` by which waking the classes due at `until` reaches it. */
  ghost predicate WakingUpdate(st: Store, rank: map<Id, nat>, until: nat, p: Id, u: Update)
    requires Climbs(st, rank)
  {
    || (u.Woken? && u.at == WakeOf(st, p) && 0 < u.at < until)
    || (u.Unblocked? && exists d :: WokenBelow(st, rank, d, until, p) && u.at == WakeOf(st, d))
  }

  ghost predicate WakingUpdates(st: Store, rank: map<Id, nat>, until: nat, p: Id, us: seq<Update>)
    requires Climbs(st, rank)
  {
    && (forall i :: 0 <= i < |us| ==> WakingUpdate(st, rank, until, p, us[i]))
    && (forall i, j :: 0 <= i < j < |us| ==> us[i].at <= us[j].at)
  }

  /** Which updates an operation makes at class `p`, with their times and usage. */
  ghost predicate Fitting(x: Call, p: Id, us: seq<Update>)
    requires Callable(x) && p in x.st && p in Outcome(x)
  {
    match x.op
    case Finish(leaf, usage, now) =>
      if OnPath(x.st, x.rank, leaf, p) then |us| == 1 && us[0].Accounted? && us[0].usage == usage && us[0].at == now
      else us == []
    case Unblock(from, at) =>
      && |us| <= 1 && (us != [] ==> us[0].Unblocked? && us[0].at == at)
      && (from == p || (x.st[p].blocked && !Outcome(x)[p].blocked) ==> us != [])
    case Wake(_, until) => WakingUpdates(x.st, x.rank, until, p, us)
    case Add(n, c, link, at) =>
      if n == p then
        && us != [] && us[0] == Listed(x.st, c, link)
        && (if AddsQuietly(x.st, n, c) then |us| == 1 else |us| == 2 && us[1].Unblocked? && us[1].at == at)
      else |us| <= 1 && (us != [] ==> us[0].Unblocked? && us[0].at == at)
    case Remove(n, c) =>
      if n == p then us != [] && us[0] == Unlisted(c) && |us| <= 2 && (|us| == 2 ==> us[1].Blocked?)
      else |us| <= 1 && (us != [] ==> us[0].Blocked?)
  }

  lemma PathInShape(st: Store, st': Store, rank: map<Id, nat>, until: nat, p: Id, d: Id)
    requires Climbs(st, rank) && Climbs(st', rank) && SameShape(st, st') && WokenBelow(st', rank, d, until, p)
    requires WakeOf(st', d) == WakeOf(st, d)
    ensures WokenBelow(st, rank, d, until, p)
  {
    forall m | m in st ensures st'[m].parent == st[m].parent {
      assert SameLinks(st[m], st'[m]);
    }
    OnPathFrame(st, st', rank, d, p);
  }

  /** Waking reaches class `p` by updates at the wakeup times of classes at or below it, in the order of these times. */
  lemma {:induction false} WakeUpdates(st: Store, rank: map<Id, nat>, q: seq<Id>, until: nat, p: Id)
    returns (us: seq<Update>)
    requires Linked(st, rank) && Climbs(st, rank) && AllOk(st) && QueueOk(st, q) && p in st
    ensures p in WakeDue(st, rank, q, until)
    ensures AllApplicable(p, st[p].body, us) && AllUpdated(p, st[p].body, us) == WakeDue(st, rank, q, until)[p].body
    ensures WakingUpdates(st, rank, until, p, us)
    ensures q != [] ==> forall i :: 0 <= i < |us| ==> WakeOf(st, q[0]) <= us[i].at
    decreases |q|
  {
    us := [];
    if q != [] && WakeOf(st, q[0]) < until {
      var c, w := q[0], WakeOf(st, q[0]);
      WakeOne(st, rank, q);
      var st1 := UnblockUp(Cleared(st, c), rank, c, w);
      var at, hit := FirstWake(st, rank, q, p);
      var rest := WakeUpdates(st1, rank, q[1..], until, p);
      RestWaking(st, st1, rank, q, until, p, rest);
      us := rest;
      if hit {
        var u := if c == p then Woken(at, w) else Unblocked(at, w);
        us := [u] + rest;
        FirstWaking(st, rank, q, until, p, u, at);
        WakingFirst(st, rank, until, p, u, rest);
        FirstApplies(st, q, p, u, at);
        UpdateFirst(p, st[p].body, u, rest);
      }
    }
  }

  lemma FirstApplies(st: Store, q: seq<Id>, p: Id, u: Update, at: Store)
    requires QueueOk(st, q) && p in st && q != [] && q[0] in st
    requires u == if q[0] == p then Woken(at, WakeOf(st, q[0])) else Unblocked(at, WakeOf(st, q[0]))
    ensures Applicable(p, st[p].body, u)
    ensures Updated(p, st[p].body, u) == UnblockBody(at, Cleared(st, q[0])[p].body, WakeOf(st, q[0]))
  {
    assert q[0] in q;
  }

  lemma WakingFirst(st: Store, rank: map<Id, nat>, until: nat, p: Id, u: Update, rest: seq<Update>)
    requires Climbs(st, rank) && WakingUpdate(st, rank, until, p, u) && WakingUpdates(st, rank, until, p, rest)
    requires forall i :: 0 <= i < |rest| ==> u.at <= rest[i].at
    ensures WakingUpdates(st, rank, until, p, [u] + rest)
  {
    var us := [u] + rest;
    forall i | 0 <= i < |us| ensures WakingUpdate(st, rank, until, p, us[i]) {
      assert i > 0 ==> us[i] == rest[i - 1];
    }
    forall i, j | 0 <= i < j < |us| ensures us[i].at <= us[j].at {
      assert us[j] == rest[j - 1] && (i > 0 ==> us[i] == rest[i - 1]);
    }
  }

  lemma FirstWake(st: Store, rank: map<Id, nat>, q: seq<Id>, p: Id) returns (at: Store, hit: bool)
    requires Linked(st, rank) && Climbs(st, rank) && AllOk(st) && QueueOk(st, q) && p in st && q != []
    ensures var c := q[0];
      && c in st && Climbs(Cleared(st, c), rank)
      && var st1 := UnblockUp(Cleared(st, c), rank, c, WakeOf(st, c));
         && p in st1 && (c == p ==> hit) && (hit ==> c == p || OnPath(st, rank, c, p))
         && st1[p].body == if hit then UnblockBody(at, Cleared(st, c)[p].body, WakeOf(st, c)) else Cleared(st, c)[p].body
  {
    var c := q[0];
    WakeOne(st, rank, q);
    at, hit := UnblockUpAt(Cleared(st, c), rank, c, WakeOf(st, c), p);
    forall m | m in st ensures Cleared(st, c)[m].parent == st[m].parent {
    }
    OnPathFrame(st, Cleared(st, c), rank, c, p);
  }

  lemma FirstWaking(st: Store, rank: map<Id, nat>, q: seq<Id>, until: nat, p: Id, u: Update, at: Store)
    requires Linked(st, rank) && Climbs(st, rank) && QueueOk(st, q) && p in st && q != [] && WakeOf(st, q[0]) < until
    requires u == if q[0] == p then Woken(at, WakeOf(st, q[0])) else Unblocked(at, WakeOf(st, q[0]))
    requires q[0] in st && (q[0] == p || OnPath(st, rank, q[0], p))
    ensures WakingUpdate(st, rank, until, p, u)
  {
    assert q[0] in q;
    assert WokenBelow(st, rank, q[0], until, p);
  }

  lemma RestWaking(st: Store, st1: Store, rank: map<Id, nat>, q: seq<Id>, until: nat, p: Id, rest: seq<Update>)
    requires Linked(st, rank) && Climbs(st, rank) && Climbs(st1, rank) && QueueOk(st, q) && q != [] && p in st
    requires SameShape(st, st1) && forall d :: WakeOf(st1, d) == if d == q[0] then 0 else WakeOf(st, d)
    requires WakingUpdates(st1, rank, until, p, rest)
    ensures WakingUpdates(st, rank, until, p, rest)
    ensures forall i :: 0 <= i < |rest| ==> WakeOf(st, q[0]) <= rest[i].at
  {
    forall i | 0 <= i < |rest| ensures WakingUpdate(st, rank, until, p, rest[i]) && WakeOf(st, q[0]) <= rest[i].at {
      assert WakingUpdate(st1, rank, until, p, rest[i]);
      if rest[i].Unblocked? {
        var d :| WokenBelow(st1, rank, d, until, p) && rest[i].at == WakeOf(st1, d);
        PathInShape(st, st1, rank, until, p, d);
        FirstIsEarliest(st, q, d);
      } else {
        FirstIsEarliest(st, q, p);
      }
    }
  }

  lemma FirstIsEarliest(st: Store, q: seq<Id>, d: Id)
    requires QueueOk(st, q) && q != [] && WakeOf(st, d) != 0
    ensures WakeOf(st, q[0]) <= WakeOf(st, d)
  {
    assert d in q;
    var i :| 0 <= i < |q| && q[i] == d;
  }

  /** Every operation acts on a class by such updates, and by no others. */
  lemma OperationUpdates(x: Call, p: Id) returns (us: seq<Update>)
    requires Callable(x) && p in x.st && p in x.rank
    ensures p in Outcome(x)
    ensures AllApplicable(p, x.st[p].body, us) && AllUpdated(p, x.st[p].body, us) == Outcome(x)[p].body
    ensures Fitting(x, p, us)
  {
    match x.op
    case Finish(_, _, _) => us := FinishUpdates(x, p);
    case Unblock(from, at) =>
      var st1, hit := UnblockUpAt(x.st, x.rank, from, at, p);
      us := if hit then [Unblocked(st1, at)] else [];
    case Wake(queue, until) => us := WakeUpdates(x.st, x.rank, queue, until, p);
    case Add(_, _, _, _) => us := AddUpdates(x, p);
    case Remove(_, _) => us := RemoveUpdates(x, p);
  }

  lemma FinishUpdates(x: Call, p: Id) returns (us: seq<Update>)
    requires Callable(x) && x.op.Finish? && p in x.st && p in x.rank
    ensures p in Outcome(x)
    ensures AllApplicable(p, x.st[p].body, us) && AllUpdated(p, x.st[p].body, us) == Outcome(x)[p].body
    ensures Fitting(x, p, us)
  {
    var leaf := x.op.leaf;
    us := [];
    if p == leaf {
      FinishUpElsewhere(x.st, x.rank, leaf, x.op.usage, x.op.now, p);
      NotOnOwnPath(x.st, x.rank, leaf, p);
    } else {
      var st1, kid := FinishUpAt(x.st, x.rank, leaf, x.op.usage, x.op.now, p);
      if OnPath(x.st, x.rank, leaf, p) {
        us := [Accounted(st1, kid, x.op.usage, x.op.now)];
        OneUpdate(p, x.st[p].body, us[0]);
      }
    }
  }

  /** What lies above a class is of higher rank. */
  lemma {:induction false} NotOnOwnPath(st: Store, rank: map<Id, nat>, n: Id, p: Id)
    requires Climbs(st, rank) && n in st && n in rank && p in rank && rank[p] <= rank[n]
    ensures !OnPath(st, rank, n, p)
    decreases Above(rank, n)
  {
    if st[n].parent.Some? {
      AboveShrinks(rank, n, st[n].parent.value);
      NotOnOwnPath(st, rank, st[n].parent.value, p);
    }
  }

  lemma AddUpdates(x: Call, p: Id) returns (us: seq<Update>)
    requires Callable(x) && x.op.Add? && p in x.st && p in x.rank
    ensures p in Outcome(x)
    ensures AllApplicable(p, x.st[p].body, us) && AllUpdated(p, x.st[p].body, us) == Outcome(x)[p].body
    ensures Fitting(x, p, us)
  {
    var n, kid, link, at := x.op.parent, x.op.child, x.op.link, x.op.when;
    var st1 := Attached(x.st, n, kid, link);
    AttachedClimbs(x.st, x.rank, n, kid, link);
    us := if n == p then [Listed(x.st, kid, link)] else [];
    if !AddsQuietly(x.st, n, kid) {
      var st2, hit := UnblockUpAt(st1, x.rank, n, at, p);
      if n == p {
        us := [Listed(x.st, kid, link), Unblocked(st2, at)];
        TwoUpdates(p, x.st[p].body, us[0], us[1]);
      } else if hit {
        us := [Unblocked(st2, at)];
        OneUpdate(p, x.st[p].body, us[0]);
      }
    } else if n == p {
      OneUpdate(p, x.st[p].body, us[0]);
    }
  }

  lemma RemoveUpdates(x: Call, p: Id) returns (us: seq<Update>)
    requires Callable(x) && x.op.Remove? && p in x.st && p in x.rank
    ensures p in Outcome(x)
    ensures AllApplicable(p, x.st[p].body, us) && AllUpdated(p, x.st[p].body, us) == Outcome(x)[p].body
    ensures Fitting(x, p, us)
  {
    var n, kid := x.op.parent, x.op.child;
    var st1 := Detached(x.st, n, kid);
    DetachedClimbs(x.st, x.rank, n, kid);
    us := if n == p then [Unlisted(kid)] else [];
    if !RemovesQuietly(x.st[n].body, kid) {
      var st2, hit := BlockUpAt(st1, x.rank, n, p);
      if n == p {
        us := [Unlisted(kid), Blocked(st2)];
        TwoUpdates(p, x.st[p].body, us[0], us[1]);
      } else if hit {
        us := [Blocked(st2)];
        OneUpdate(p, x.st[p].body, us[0]);
      }
    } else if n == p {
      OneUpdate(p, x.st[p].body, us[0]);
    }
  }
}

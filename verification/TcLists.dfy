/** The loops by which the classes go over their lists of children (bess/core/traffic_class.cc, bess/core/utils/common.h). */
module TcLists {
  import opened Wrappers
  import opened Stride
  import opened TrafficClass
  import opened TcUnblock
  import opened TcBlock
  import opened TcTree

  method ScanRunnable(st: Store, children: seq<Prio>, start: nat) returns (first: nat)
    requires start <= |children|
    ensures first == FirstRunnable(st, children, start)
  {
    first := start;
    while first < |children| && IsBlocked(st, children[first].c)
      invariant first <= |children|
      invariant FirstRunnable(st, children, first) == FirstRunnable(st, children, start)
    {
      first := first + 1;
    }
  }

  /** What is left of the loop over the blocked list, from position `i` on. */
  ghost predicate WakeLeft(st: Store, r: seq<Entry>, s: seq<Entry>, q: seq<Entry>, i: nat,
                           joined: seq<Entry>, asleep: seq<Entry>)
    requires i <= |q|
  {
    JoinAwake(st, r, q[i..]) == joined && s + StillAsleep(st, q[i..]) == asleep
  }

  lemma WakeLeftStep(st: Store, r: seq<Entry>, s: seq<Entry>, q: seq<Entry>, i: nat,
                     joined: seq<Entry>, asleep: seq<Entry>)
    requires i < |q| && WakeLeft(st, r, s, q, i, joined, asleep)
    ensures if IsBlocked(st, q[i].c) then WakeLeft(st, r, s + [q[i]], q, i + 1, joined, asleep)
            else WakeLeft(st, Rejoined(r, q[i]), s, q, i + 1, joined, asleep)
  {
    var tail, rest := q[i..], q[i + 1..];
    assert tail[0] == q[i] && tail[1..] == rest;
    if IsBlocked(st, q[i].c) {
      assert StillAsleep(st, tail) == [q[i]] + StillAsleep(st, rest);
      assert s + ([q[i]] + StillAsleep(st, rest)) == (s + [q[i]]) + StillAsleep(st, rest);
    } else {
      assert StillAsleep(st, tail) == StillAsleep(st, rest);
    }
  }

  method WakeSleepers(st: Store, runnable: seq<Entry>, sleeping: seq<Entry>) returns (r: seq<Entry>, s: seq<Entry>)
    ensures r == JoinAwake(st, runnable, sleeping) && s == StillAsleep(st, sleeping)
  {
    r, s := runnable, [];
    ghost var joined, asleep := JoinAwake(st, runnable, sleeping), StillAsleep(st, sleeping);
    assert sleeping[0..] == sleeping;
    var i := 0;
    while i < |sleeping|
      invariant i <= |sleeping|
      invariant WakeLeft(st, r, s, sleeping, i, joined, asleep)
    {
      WakeLeftStep(st, r, s, sleeping, i, joined, asleep);
      if !IsBlocked(st, sleeping[i].c) {
        r := Rejoined(r, sleeping[i]);
      } else {
        s := s + [sleeping[i]];
      }
      i := i + 1;
    }
    assert sleeping[i..] == [];
    assert JoinAwake(st, r, []) == r && StillAsleep(st, []) == [];
  }

  method WakeWaiting(st: Store, ready: seq<Id>, waiting: seq<Id>) returns (r: seq<Id>, w: seq<Id>)
    ensures r == ready + Awake(st, waiting) && w == Asleep(st, waiting)
  {
    r, w := ready, [];
    for i := 0 to |waiting|
      invariant r + Awake(st, waiting[i..]) == ready + Awake(st, waiting)
      invariant w + Asleep(st, waiting[i..]) == Asleep(st, waiting)
    {
      assert waiting[i..][0] == waiting[i] && waiting[i..][1..] == waiting[i + 1..];
      if !IsBlocked(st, waiting[i]) {
        r := r + [waiting[i]];
      } else {
        w := w + [waiting[i]];
      }
    }
  }

  lemma {:induction false} FirstBlockedIs(st: Store, q: seq<Entry>, k: nat)
    requires k <= |q| && (forall i :: 0 <= i < k ==> !IsBlocked(st, q[i].c)) && (k < |q| ==> IsBlocked(st, q[k].c))
    ensures FirstBlocked(st, q) == k
  {
    if k > 0 {
      FirstBlockedIs(st, q[1..], k - 1);
    }
  }

  /** `delete_single_element` with the predicate of `BlockTowardsRoot`. */
  method DropBlocked(st: Store, runnable: seq<Entry>, sleeping: seq<Entry>) returns (r: seq<Entry>, s: seq<Entry>)
    ensures var k := FirstBlocked(st, runnable);
      if k == |runnable| then r == runnable && s == sleeping
      else r == runnable[..k] + runnable[k + 1..] && s == sleeping + [runnable[k]]
  {
    r, s := runnable, sleeping;
    var k := 0;
    while k < |runnable| && !IsBlocked(st, runnable[k].c)
      invariant k <= |runnable|
      invariant forall i :: 0 <= i < k ==> !IsBlocked(st, runnable[i].c)
    {
      k := k + 1;
    }
    FirstBlockedIs(st, runnable, k);
    if k < |runnable| {
      s := s + [runnable[k]];
      r := runnable[..k] + runnable[k + 1..];
    }
  }

  method DropBlockedFromRing(st: Store, r: Ring) returns (s: Ring)
    ensures s == BlockRing(st, r, 0)
  {
    s := r;
    var i := 0;
    while i < |s.ready|
      invariant i <= |s.ready|
      invariant BlockRing(st, s, i) == BlockRing(st, r, 0)
      decreases |s.ready| - i
    {
      if IsBlocked(st, s.ready[i]) {
        var next := s.next;
        if next > i {
          next := next - 1;
        }
        if next >= |s.ready| - 1 {
          next := 0;
        }
        s := Ring(next, s.ready[..i] + s.ready[i + 1..], s.waiting + [s.ready[i]]);
      } else {
        i := i + 1;
      }
    }
  }

  /** `InsertSorted`: append, then swap backwards. */
  method InsertSorted(children: seq<Prio>, d: Prio) returns (r: seq<Prio>)
    ensures r == InsertPrio(children, d)
  {
    r := children + [d];
    var i := |r| - 1;
    assert children[..i] == children && children[i..] == [];
    while i > 0 && r[i].priority < r[i - 1].priority
      invariant 0 <= i < |r| == |children| + 1
      invariant r == children[..i] + [d] + children[i..]
      invariant InsertPrio(children, d) == InsertPrio(children[..i], d) + children[i..]
    {
      SwapBack(children, d, r, i);
      r := r[i := r[i - 1]][i - 1 := r[i]];
      i := i - 1;
    }
    assert InsertPrio(children[..i], d) == children[..i] + [d];
  }

  /** One swap of `InsertSorted`. */
  lemma SwapBack(children: seq<Prio>, d: Prio, r: seq<Prio>, i: nat)
    requires 0 < i <= |children| && r == children[..i] + [d] + children[i..] && d.priority < children[i - 1].priority
    ensures r[i - 1] == children[i - 1] && r[i] == d
    ensures r[i := r[i - 1]][i - 1 := r[i]] == children[..i - 1] + [d] + children[i - 1..]
    ensures InsertPrio(children[..i], d) + children[i..] == InsertPrio(children[..i - 1], d) + children[i - 1..]
  {
    InsertStep(children[..i], d, children[i..]);
    assert children[..i][..i - 1] == children[..i - 1] && [children[i - 1]] + children[i..] == children[i - 1..];
  }

  lemma InsertStep(front: seq<Prio>, d: Prio, back: seq<Prio>)
    requires front != [] && d.priority < front[|front| - 1].priority
    ensures InsertPrio(front, d) + back == InsertPrio(front[..|front| - 1], d) + ([front[|front| - 1]] + back)
  {
  }

  /** The position of `c` in a list, or its length. */
  method Find(ids: seq<Id>, c: Id) returns (i: nat)
    ensures i == IndexOf(ids, c)
  {
    i := 0;
    while i < |ids| && ids[i] != c
      invariant i <= |ids|
      invariant forall j :: 0 <= j < i ==> ids[j] != c
    {
      i := i + 1;
    }
  }

  method PriorityTaken(children: seq<Prio>, priority: nat) returns (taken: bool)
    ensures taken <==> HasPriority(children, priority)
  {
    taken := false;
    for i := 0 to |children|
      invariant !HasPriority(children[..i], priority)
    {
      if children[i].priority == priority {
        return true;
      }
      assert forall j :: 0 <= j <= i ==> children[..i + 1][j] == children[j];
      assert forall j :: 0 <= j < i ==> children[..i][j] == children[j];
    }
    assert children[..|children|] == children;
  }
}

/**
 Stride scheduling of a weighted-fair traffic class (bess/core/traffic_class.cc:188-298,
 bess/core/traffic_class.h:330-415) over real-valued passes. The runnable children form a priority
 queue, kept here as a sequence sorted by pass; `pass` doubles as `remain` while a child is blocked,
 because the source keeps both in one union.
 */
module Stride {
  /** `ChildData`. */
  datatype Entry = Entry(c: nat, stride: real, pass: real)

  const STRIDE1: real := 1048576.0
  const QUANTUM: real := 1024.0

  function NextPass(q: seq<Entry>): real {
    if q == [] then 0.0 else q[0].pass
  }

  function Push(q: seq<Entry>, e: Entry): (r: seq<Entry>)
    ensures |r| == |q| + 1
  {
    if q == [] || e.pass < q[0].pass then [e] + q else [q[0]] + Push(q[1..], e)
  }

  function StrideOf(share: int): real
    requires share != 0
  {
    STRIDE1 / share as real
  }

  /** The charge for `consumed` units of the shared resource. */
  function PassDelta(e: Entry, consumed: nat): real {
    e.stride * consumed as real / QUANTUM
  }

  /** The accounting of an unblocked child: its pass grows and the queue is reordered. */
  function Charged(q: seq<Entry>, delta: real): seq<Entry>
    requires q != []
  {
    Push(q[1..], q[0].(pass := q[0].pass + delta))
  }

  /** One blocked child becomes runnable: its penalty counts from the current minimum. */
  function Rejoined(q: seq<Entry>, e: Entry): seq<Entry> {
    Push(q, e.(pass := NextPass(q) + e.pass))
  }

  ghost predicate Sorted(q: seq<Entry>) {
    forall i, j :: 0 <= i < j < |q| ==> q[i].pass <= q[j].pass
  }

  function Bag(q: seq<Entry>): multiset<nat> {
    if q == [] then multiset{} else multiset{q[0].c} + Bag(q[1..])
  }

  lemma {:induction false} BagIndex(q: seq<Entry>, i: nat)
    requires i < |q|
    ensures q[i].c in Bag(q)
    decreases q
  {
    if i > 0 {
      BagIndex(q[1..], i - 1);
    }
  }

  lemma {:induction false} BagFind(q: seq<Entry>, c: nat) returns (i: nat)
    requires c in Bag(q)
    ensures i < |q| && q[i].c == c
    decreases q
  {
    if q[0].c == c {
      i := 0;
    } else {
      i := BagFind(q[1..], c);
      i := i + 1;
    }
  }

  lemma {:induction false} BagAppend(a: seq<Entry>, b: seq<Entry>)
    ensures Bag(a + b) == Bag(a) + Bag(b)
    decreases a
  {
    if a == [] {
      assert a + b == b;
    } else {
      var ab := a + b;
      assert ab[0] == a[0] && ab[1..] == a[1..] + b;
      BagAppend(a[1..], b);
      assert Bag(ab) == multiset{a[0].c} + Bag(ab[1..]);
    }
  }

  lemma {:induction false} PushBag(q: seq<Entry>, e: Entry)
    ensures Bag(Push(q, e)) == Bag(q) + multiset{e.c}
    decreases q
  {
    if q == [] || e.pass < q[0].pass {
      assert ([e] + q)[1..] == q;
    } else {
      PushBag(q[1..], e);
      assert ([q[0]] + Push(q[1..], e))[1..] == Push(q[1..], e);
    }
  }

  /** Every entry of the pushed queue is the new one or an old one. */
  lemma {:induction false} PushMember(q: seq<Entry>, e: Entry, i: nat)
    requires i < |Push(q, e)|
    ensures Push(q, e)[i] == e || Push(q, e)[i] in q
    decreases q
  {
    if q == [] || e.pass < q[0].pass {
    } else if i > 0 {
      PushMember(q[1..], e, i - 1);
    }
  }

  lemma {:induction false} PushSorted(q: seq<Entry>, e: Entry)
    requires Sorted(q)
    ensures Sorted(Push(q, e))
    ensures NextPass(Push(q, e)) == if q == [] || e.pass < q[0].pass then e.pass else q[0].pass
    decreases q
  {
    if q == [] || e.pass < q[0].pass {
    } else {
      PushSorted(q[1..], e);
      var r := Push(q[1..], e);
      forall i | 0 <= i < |r| ensures q[0].pass <= r[i].pass {
        PushMember(q[1..], e, i);
      }
    }
  }

  /** A charge times the share is the same multiple of the resource used, whatever the share. */
  lemma ChargeScalesWithShare(c: nat, pass: real, share: int, consumed: nat)
    requires share != 0
    ensures PassDelta(Entry(c, StrideOf(share), pass), consumed) * share as real == STRIDE1 / QUANTUM * consumed as real
  {
    var s, u := share as real, consumed as real;
    var stride := StrideOf(share);
    assert stride * s == STRIDE1;
    assert (stride * u) * s == (stride * s) * u;
    assert (stride * u / QUANTUM) * s == (stride * u) * s / QUANTUM;
  }

  // ----- strides -----

  datatype Weight = Weight(c: nat, stride: real)

  function WeightOf(e: Entry): Weight {
    Weight(e.c, e.stride)
  }

  lemma SumAssociates<T>(x: multiset<T>, y: multiset<T>, z: multiset<T>)
    ensures x + (y + z) == (x + y) + z
  {
  }

  lemma SumInserts<T>(x: multiset<T>, y: multiset<T>, e: T)
    ensures x + (multiset{e} + y) == (x + y) + multiset{e}
  {
  }

  /** The children with their strides. */
  function Strides(q: seq<Entry>): multiset<Weight> {
    if q == [] then multiset{} else multiset{WeightOf(q[0])} + Strides(q[1..])
  }

  lemma StridesCons(e: Entry, q: seq<Entry>)
    ensures Strides([e] + q) == multiset{WeightOf(e)} + Strides(q)
  {
    assert ([e] + q)[1..] == q;
  }

  lemma {:induction false} StridesAppend(a: seq<Entry>, b: seq<Entry>)
    ensures Strides(a + b) == Strides(a) + Strides(b)
    decreases a
  {
    if a == [] {
      assert a + b == b;
    } else {
      var ab, first := a + b, multiset{WeightOf(a[0])};
      assert ab[0] == a[0] && ab[1..] == a[1..] + b;
      StridesAppend(a[1..], b);
      assert Strides(ab) == first + Strides(ab[1..]) && Strides(a) == first + Strides(a[1..]);
      SumAssociates(first, Strides(a[1..]), Strides(b));
    }
  }

  /** Pushing keeps every entry's stride. */
  lemma {:induction false} PushStrides(q: seq<Entry>, e: Entry)
    ensures Strides(Push(q, e)) == Strides(q) + multiset{WeightOf(e)}
    decreases q
  {
    if q == [] || e.pass < q[0].pass {
      StridesCons(e, q);
    } else {
      PushStrides(q[1..], e);
      StridesCons(q[0], Push(q[1..], e));
      SumAssociates(multiset{WeightOf(q[0])}, Strides(q[1..]), multiset{WeightOf(e)});
    }
  }

  lemma StridesErase(q: seq<Entry>, k: nat)
    requires k < |q|
    ensures Strides(q[..k] + q[k + 1..]) + multiset{WeightOf(q[k])} == Strides(q)
  {
    var front, back := q[..k], q[k + 1..];
    var tail := [q[k]] + back;
    assert q == front + tail;
    StridesAppend(front, back);
    StridesAppend(front, tail);
    StridesCons(q[k], back);
    assert Strides(q) == Strides(front) + (multiset{WeightOf(q[k])} + Strides(back));
    SumInserts(Strides(front), Strides(back), WeightOf(q[k]));
  }

  lemma SumThrough<T>(a: multiset<T>, b: multiset<T>, c: multiset<T>, d: multiset<T>, e: multiset<T>)
    requires a + b == c + d
    ensures a + (e + b) == c + (e + d)
  {
    assert a + (e + b) == e + (a + b) && c + (e + d) == e + (c + d);
  }

  lemma SumMoves<T>(x: multiset<T>, y: multiset<T>, e: T)
    ensures x + (y + multiset{e}) == (x + multiset{e}) + y
  {
  }

  lemma SumSwaps<T>(x: multiset<T>, y: multiset<T>, e: T)
    ensures x + (y + multiset{e}) == (multiset{e} + x) + y
  {
  }

  lemma ChargedStrides(q: seq<Entry>, delta: real)
    requires q != []
    ensures Strides(Charged(q, delta)) == Strides(q)
  {
    PushStrides(q[1..], q[0].(pass := q[0].pass + delta));
  }

  lemma StridesSnoc(q: seq<Entry>, e: Entry)
    ensures Strides(q + [e]) == Strides(q) + multiset{WeightOf(e)}
  {
    StridesAppend(q, [e]);
    assert [e][1..] == [];
  }

  /** An entry moves from the queue to the blocked list. */
  lemma MoveStrides(runnable: seq<Entry>, blocked: seq<Entry>, k: nat, e: Entry)
    requires k < |runnable| && WeightOf(e) == WeightOf(runnable[k])
    ensures Strides(runnable[..k] + runnable[k + 1..]) + Strides(blocked + [e]) == Strides(runnable) + Strides(blocked)
  {
    StridesErase(runnable, k);
    StridesSnoc(blocked, e);
    SumMoves(Strides(runnable[..k] + runnable[k + 1..]), Strides(blocked), WeightOf(e));
  }

  lemma MoveHeadStrides(runnable: seq<Entry>, blocked: seq<Entry>, pass: real)
    requires runnable != []
    ensures Strides(runnable[1..]) + Strides(blocked + [runnable[0].(pass := pass)]) == Strides(runnable) + Strides(blocked)
  {
    var e := runnable[0].(pass := pass);
    StridesSnoc(blocked, e);
    assert runnable == [runnable[0]] + runnable[1..];
    SumSwaps(Strides(runnable[1..]), Strides(blocked), WeightOf(e));
  }

  /** A new entry, on either list. */
  lemma AddStrides(runnable: seq<Entry>, blocked: seq<Entry>, e: Entry)
    ensures Strides(Push(runnable, e)) + Strides(blocked) == (Strides(runnable) + Strides(blocked)) + multiset{WeightOf(e)}
    ensures Strides(runnable) + Strides(blocked + [e]) == (Strides(runnable) + Strides(blocked)) + multiset{WeightOf(e)}
  {
    PushStrides(runnable, e);
    StridesSnoc(blocked, e);
    SumMoves(Strides(runnable), Strides(blocked), WeightOf(e));
    SumAssociates(Strides(runnable), Strides(blocked), multiset{WeightOf(e)});
  }

  lemma LeftLoses<T>(x: multiset<T>, x': multiset<T>, y: multiset<T>, e: T)
    requires x' + multiset{e} == x
    ensures (x' + y) + multiset{e} == x + y
  {
  }

  lemma RightLoses<T>(x: multiset<T>, y: multiset<T>, y': multiset<T>, e: T)
    requires y' + multiset{e} == y
    ensures (x + y') + multiset{e} == x + y
  {
  }

  /** An entry is passed over, or joins the queue, while the blocked list is gone through. */
  lemma PassedOverStrides(join: seq<Entry>, still: seq<Entry>, runnable: seq<Entry>, rest: seq<Entry>, e: Entry)
    requires Strides(join) + Strides(still) == Strides(runnable) + Strides(rest)
    ensures Strides(join) + Strides([e] + still) == Strides(runnable) + Strides([e] + rest)
  {
    StridesCons(e, still);
    StridesCons(e, rest);
    SumThrough(Strides(join), Strides(still), Strides(runnable), Strides(rest), multiset{WeightOf(e)});
  }

  lemma JoinedStrides(runnable: seq<Entry>, rest: seq<Entry>, e: Entry)
    ensures Strides(Rejoined(runnable, e)) + Strides(rest) == Strides(runnable) + Strides([e] + rest)
  {
    PushStrides(runnable, e.(pass := NextPass(runnable) + e.pass));
    StridesCons(e, rest);
    SumAssociates(Strides(runnable), multiset{WeightOf(e)}, Strides(rest));
  }

  lemma {:induction false} StridesMember(q: seq<Entry>, i: nat)
    requires i < |q|
    ensures WeightOf(q[i]) in Strides(q)
    decreases q
  {
    if i > 0 {
      StridesMember(q[1..], i - 1);
    }
  }

  /** A child listed once has one stride. */
  lemma {:induction false} StridesCount(q: seq<Entry>, c: nat, x: real, y: real)
    ensures x != y ==> Strides(q)[Weight(c, x)] + Strides(q)[Weight(c, y)] <= Bag(q)[c]
    ensures Strides(q)[Weight(c, x)] <= Bag(q)[c]
    decreases q
  {
    if q != [] {
      StridesCount(q[1..], c, x, y);
    }
  }

  // ----- fairness -----

  /** The runnable and the blocked children of a weighted-fair class. */
  datatype Wfq = Wfq(runnable: seq<Entry>, blocked: seq<Entry>)

  /** All runnable passes lie within `d` of the minimum, and every penalty is a charge of at most `d`. */
  ghost predicate Spread(w: Wfq, d: real) {
    && Sorted(w.runnable)
    && (forall i :: 0 <= i < |w.runnable| ==> w.runnable[i].pass <= NextPass(w.runnable) + d)
    && (forall i :: 0 <= i < |w.blocked| ==> 0.0 <= w.blocked[i].pass <= d)
  }

  datatype Step =
    | Charge(delta: real)             // account the top child, which stays runnable
    | ChargeAndBlock(delta: real)     // account the top child, which has become blocked
    | Wake(i: nat)                    // blocked child i becomes runnable
    | Add(c: nat, stride: real)       // a new child that is not blocked
    | Remove(i: nat)                  // runnable child i is removed
    | RemoveBlocked(i: nat)

  ghost predicate Possible(w: Wfq, s: Step, d: real) {
    match s
    case Charge(delta) => w.runnable != [] && 0.0 <= delta <= d
    case ChargeAndBlock(delta) => w.runnable != [] && 0.0 <= delta <= d
    case Wake(i) => i < |w.blocked|
    case Add(_, _) => true
    case Remove(i) => i < |w.runnable|
    case RemoveBlocked(i) => i < |w.blocked|
  }

  ghost function Next(w: Wfq, s: Step, d: real): Wfq
    requires Possible(w, s, d)
  {
    match s
    case Charge(delta) => w.(runnable := Charged(w.runnable, delta))
    case ChargeAndBlock(delta) => Wfq(w.runnable[1..], w.blocked + [w.runnable[0].(pass := delta)])
    case Wake(i) => Wfq(Rejoined(w.runnable, w.blocked[i]), w.blocked[..i] + w.blocked[i + 1..])
    case Add(c, stride) => w.(runnable := Push(w.runnable, Entry(c, stride, NextPass(w.runnable))))
    case Remove(i) => w.(runnable := w.runnable[..i] + w.runnable[i + 1..])
    case RemoveBlocked(i) => w.(blocked := w.blocked[..i] + w.blocked[i + 1..])
  }

  lemma PushKeepsSpread(q: seq<Entry>, e: Entry, base: real, d: real)
    requires Sorted(q) && d >= 0.0
    requires q != [] ==> base <= q[0].pass
    requires forall i :: 0 <= i < |q| ==> q[i].pass <= base + d
    requires base <= e.pass <= base + d
    ensures Sorted(Push(q, e))
    ensures forall i :: 0 <= i < |Push(q, e)| ==> Push(q, e)[i].pass <= NextPass(Push(q, e)) + d
  {
    PushSorted(q, e);
    forall i | 0 <= i < |Push(q, e)| ensures Push(q, e)[i].pass <= NextPass(Push(q, e)) + d {
      PushMember(q, e, i);
    }
  }

  lemma ChargeKeepsSpread(w: Wfq, delta: real, d: real)
    requires Spread(w, d) && w.runnable != [] && 0.0 <= delta <= d
    ensures Spread(w.(runnable := Charged(w.runnable, delta)), d)
  {
    var q := w.runnable;
    PushKeepsSpread(q[1..], q[0].(pass := q[0].pass + delta), q[0].pass, d);
  }

  lemma ChargeAndBlockKeepsSpread(w: Wfq, delta: real, d: real)
    requires Spread(w, d) && w.runnable != [] && 0.0 <= delta <= d
    ensures Spread(Wfq(w.runnable[1..], w.blocked + [w.runnable[0].(pass := delta)]), d)
  {
    var q := w.runnable;
    var tail := q[1..];
    forall i | 0 <= i < |tail| ensures tail[i].pass <= NextPass(tail) + d {
      assert tail[i] == q[i + 1] && NextPass(q) <= NextPass(tail);
    }
  }

  lemma WakeKeepsSpread(w: Wfq, i: nat, d: real)
    requires Spread(w, d) && i < |w.blocked| && d >= 0.0
    ensures Spread(Wfq(Rejoined(w.runnable, w.blocked[i]), w.blocked[..i] + w.blocked[i + 1..]), d)
  {
    var q := w.runnable;
    PushKeepsSpread(q, w.blocked[i].(pass := NextPass(q) + w.blocked[i].pass), NextPass(q), d);
  }

  /** Every step keeps the passes together. */
  lemma StepKeepsSpread(w: Wfq, s: Step, d: real)
    requires Spread(w, d) && Possible(w, s, d) && d >= 0.0
    ensures Spread(Next(w, s, d), d)
  {
    match s
    case Charge(delta) => ChargeKeepsSpread(w, delta, d);
    case ChargeAndBlock(delta) => ChargeAndBlockKeepsSpread(w, delta, d);
    case Wake(i) => WakeKeepsSpread(w, i, d);
    case Add(c, stride) =>
      PushKeepsSpread(w.runnable, Entry(c, stride, NextPass(w.runnable)), NextPass(w.runnable), d);
    case Remove(i) => RemoveKeepsSpread(w.runnable, i, d);
    case RemoveBlocked(i) =>
  }

  lemma RemoveKeepsSpread(q: seq<Entry>, i: nat, d: real)
    requires Sorted(q) && i < |q|
    requires forall j :: 0 <= j < |q| ==> q[j].pass <= NextPass(q) + d
    ensures var r := q[..i] + q[i + 1..];
      Sorted(r) && forall j :: 0 <= j < |r| ==> r[j].pass <= NextPass(r) + d
  {
    var r := q[..i] + q[i + 1..];
    forall j | 0 <= j < |r| ensures r[j] == if j < i then q[j] else q[j + 1] {
    }
    if r != [] {
      assert r[0].pass >= q[0].pass;
    }
  }

  /** The pass of a runnable child. */
  ghost function PassOf(q: seq<Entry>, c: nat): real {
    if q == [] then 0.0 else if q[0].c == c then q[0].pass else PassOf(q[1..], c)
  }

  ghost predicate Runnable(w: Wfq, c: nat) {
    Bag(w.runnable)[c] == 1
  }

  lemma {:induction false} PassOfFinds(q: seq<Entry>, c: nat) returns (i: nat)
    requires c in Bag(q)
    ensures i < |q| && q[i].c == c && q[i].pass == PassOf(q, c)
    decreases q
  {
    if q[0].c == c {
      i := 0;
    } else {
      i := PassOfFinds(q[1..], c);
      i := i + 1;
    }
  }

  lemma {:induction false} PassOfPush(q: seq<Entry>, e: Entry, c: nat)
    requires (Bag(q) + multiset{e.c})[c] == 1
    ensures PassOf(Push(q, e), c) == if c == e.c then e.pass else PassOf(q, c)
    decreases q
  {
    if q == [] || e.pass < q[0].pass {
      assert ([e] + q)[1..] == q;
    } else {
      assert ([q[0]] + Push(q[1..], e))[1..] == Push(q[1..], e);
      if q[0].c != c {
        PassOfPush(q[1..], e, c);
      }
    }
  }

  lemma {:induction false} PassOfErase(q: seq<Entry>, i: nat, c: nat)
    requires i < |q| && c in Bag(q[..i] + q[i + 1..]) && Bag(q)[c] == 1
    ensures PassOf(q[..i] + q[i + 1..], c) == PassOf(q, c)
    decreases q
  {
    var r := q[..i] + q[i + 1..];
    if i == 0 {
      assert r == q[1..];
    } else {
      assert r[1..] == q[1..][..i - 1] + q[1..][i..];
      if q[0].c != c {
        PassOfErase(q[1..], i - 1, c);
      }
    }
  }

  /** What a step charges to child `c`, scaled by its share. */
  ghost function Service(w: Wfq, s: Step, c: nat): real {
    if s.Charge? && w.runnable != [] && w.runnable[0].c == c then s.delta else 0.0
  }

  lemma PassAfterCharge(q: seq<Entry>, delta: real, c: nat)
    requires q != [] && Bag(q)[c] == 1
    ensures PassOf(Charged(q, delta), c) == PassOf(q, c) + (if q[0].c == c then delta else 0.0)
  {
    var e := q[0].(pass := q[0].pass + delta);
    assert Bag(q) == multiset{q[0].c} + Bag(q[1..]);
    PassOfPush(q[1..], e, c);
  }

  lemma PassAfterPush(q: seq<Entry>, e: Entry, c: nat)
    requires Bag(q)[c] == 1 && Bag(Push(q, e))[c] == 1
    ensures PassOf(Push(q, e), c) == PassOf(q, c)
  {
    PushBag(q, e);
    PassOfPush(q, e, c);
  }

  lemma PassAfterPop(q: seq<Entry>, c: nat)
    requires q != [] && Bag(q)[c] == 1 && Bag(q[1..])[c] == 1
    ensures PassOf(q[1..], c) == PassOf(q, c)
  {
    assert Bag(q) == multiset{q[0].c} + Bag(q[1..]);
  }

  /** A child that stays runnable has its pass moved by exactly what it is charged. */
  lemma PassIsService(w: Wfq, s: Step, d: real, c: nat)
    requires Possible(w, s, d) && Runnable(w, c) && Runnable(Next(w, s, d), c)
    ensures PassOf(Next(w, s, d).runnable, c) == PassOf(w.runnable, c) + Service(w, s, c)
  {
    var q := w.runnable;
    match s
    case Charge(delta) => PassAfterCharge(q, delta, c);
    case ChargeAndBlock(delta) => PassAfterPop(q, c);
    case Wake(i) => PassAfterPush(q, w.blocked[i].(pass := NextPass(q) + w.blocked[i].pass), c);
    case Add(n, stride) => PassAfterPush(q, Entry(n, stride, NextPass(q)), c);
    case Remove(i) => PassOfErase(q, i, c);
    case RemoveBlocked(i) =>
  }

  /** What a blocking child used and was not charged puts it as far behind the minimum when it wakes. */
  lemma PenaltyIsPaid(w: Wfq, delta: real, d: real, c: nat)
    requires w.runnable != [] && w.runnable[0].c == c && Runnable(w, c) && 0.0 <= delta <= d
    ensures var slept := Next(w, ChargeAndBlock(delta), d);
      && Possible(slept, Wake(|w.blocked|), d)
      && var woken := Next(slept, Wake(|w.blocked|), d);
         PassOf(woken.runnable, c) == NextPass(slept.runnable) + delta && woken.blocked == w.blocked
  {
    var q := w.runnable;
    var slept := Next(w, ChargeAndBlock(delta), d);
    assert Bag(q) == multiset{c} + Bag(q[1..]);
    PassOfPush(q[1..], slept.blocked[|w.blocked|].(pass := NextPass(q[1..]) + delta), c);
  }

  /** A run in which `a` and `b` stay runnable, with what each was charged. */
  ghost predicate BothRunnable(w: Wfq, steps: seq<Step>, d: real, a: nat, b: nat)
    decreases |steps|
  {
    && Runnable(w, a) && Runnable(w, b)
    && (steps == [] || (Possible(w, steps[0], d) && BothRunnable(Next(w, steps[0], d), steps[1..], d, a, b)))
  }

  ghost function RunService(w: Wfq, steps: seq<Step>, d: real, a: nat, b: nat, c: nat): real
    requires BothRunnable(w, steps, d, a, b)
    decreases |steps|
  {
    if steps == [] then 0.0
    else Service(w, steps[0], c) + RunService(Next(w, steps[0], d), steps[1..], d, a, b, c)
  }

  ghost function RunEnd(w: Wfq, steps: seq<Step>, d: real, a: nat, b: nat): Wfq
    requires BothRunnable(w, steps, d, a, b)
    decreases |steps|
  {
    if steps == [] then w else RunEnd(Next(w, steps[0], d), steps[1..], d, a, b)
  }

  lemma {:induction false} RunMovesPasses(w: Wfq, steps: seq<Step>, d: real, a: nat, b: nat)
    requires Spread(w, d) && d >= 0.0 && BothRunnable(w, steps, d, a, b)
    ensures var end := RunEnd(w, steps, d, a, b);
      && Spread(end, d) && Runnable(end, a) && Runnable(end, b)
      && PassOf(end.runnable, a) == PassOf(w.runnable, a) + RunService(w, steps, d, a, b, a)
      && PassOf(end.runnable, b) == PassOf(w.runnable, b) + RunService(w, steps, d, a, b, b)
    decreases |steps|
  {
    if steps != [] {
      var w1 := Next(w, steps[0], d);
      StepKeepsSpread(w, steps[0], d);
      PassIsService(w, steps[0], d, a);
      PassIsService(w, steps[0], d, b);
      RunMovesPasses(w1, steps[1..], d, a, b);
    }
  }

  lemma WithinSpread(w: Wfq, d: real, a: nat, b: nat)
    requires Spread(w, d) && Runnable(w, a) && Runnable(w, b)
    ensures PassOf(w.runnable, a) <= PassOf(w.runnable, b) + d
  {
    var i := PassOfFinds(w.runnable, a);
    var j := PassOfFinds(w.runnable, b);
    assert w.runnable[0].pass <= w.runnable[j].pass;
  }

  /** Over any interval, two continuously runnable children's share-scaled service differs by at most `2 d`. */
  lemma Fairness(w: Wfq, steps: seq<Step>, d: real, a: nat, b: nat)
    requires Spread(w, d) && d >= 0.0 && BothRunnable(w, steps, d, a, b)
    ensures RunService(w, steps, d, a, b, a) <= RunService(w, steps, d, a, b, b) + 2.0 * d
    ensures RunService(w, steps, d, a, b, b) <= RunService(w, steps, d, a, b, a) + 2.0 * d
  {
    var end := RunEnd(w, steps, d, a, b);
    RunMovesPasses(w, steps, d, a, b);
    WithinSpread(w, d, a, b);
    WithinSpread(w, d, b, a);
    WithinSpread(end, d, a, b);
    WithinSpread(end, d, b, a);
  }

  /**
   `BlockTowardsRoot` and `AddChild` of a blocked child store a pass in the union that waking reads as
   a penalty. Queueing an entry as blocked keeps the spread exactly when its pass is a penalty of at most `d`.
   */
  lemma BlockedEntryKeepsSpreadIff(w: Wfq, e: Entry, d: real)
    requires Spread(w, d)
    ensures Spread(w.(blocked := w.blocked + [e]), d) <==> 0.0 <= e.pass <= d
  {
    var blocked := w.blocked + [e];
    assert blocked[|w.blocked|] == e;
    assert forall i :: 0 <= i < |w.blocked| ==> blocked[i] == w.blocked[i];
  }

  /** The runnable passes are sorted and lie within `d` of the minimum. */
  ghost predicate Within(q: seq<Entry>, d: real) {
    Sorted(q) && forall i :: 0 <= i < |q| ==> q[i].pass <= NextPass(q) + d
  }

  lemma {:induction false} PushHas(q: seq<Entry>, e: Entry) returns (j: nat)
    ensures j < |Push(q, e)| && Push(q, e)[j] == e
    decreases q
  {
    if q == [] || e.pass < q[0].pass {
      j := 0;
    } else {
      j := PushHas(q[1..], e);
      j := j + 1;
    }
  }

  lemma {:induction false} PushKeeps(q: seq<Entry>, e: Entry, i: nat) returns (j: nat)
    requires i < |q|
    ensures j < |Push(q, e)| && Push(q, e)[j] == q[i]
    decreases q
  {
    if q == [] || e.pass < q[0].pass {
      j := i + 1;
    } else if i == 0 {
      j := 0;
    } else {
      j := PushKeeps(q[1..], e, i - 1);
      j := j + 1;
    }
  }

  /**
   Waking an entry, whatever was stored in its union, keeps the runnable passes within `d` exactly when the queue
   is empty, or the stored value is at most `d` and does not undercut the largest pass by more than `d`.
   */
  lemma WakeKeepsWithinIff(q: seq<Entry>, e: Entry, d: real)
    requires Within(q, d) && d >= 0.0
    ensures Within(Rejoined(q, e), d) <==> q == [] || q[|q| - 1].pass - NextPass(q) - d <= e.pass <= d
  {
    var e' := e.(pass := NextPass(q) + e.pass);
    var r := Rejoined(q, e);
    PushSorted(q, e');
    var at := PushHas(q, e');
    if q != [] {
      var last := PushKeeps(q, e', |q| - 1);
      if q[|q| - 1].pass - NextPass(q) - d <= e.pass <= d {
        forall i | 0 <= i < |r| ensures r[i].pass <= NextPass(r) + d {
          PushMember(q, e', i);
        }
      } else if e.pass > d {
        assert r[at].pass > NextPass(r) + d;
      } else {
        assert r[last].pass > NextPass(r) + d;
      }
    } else {
      assert |r| == 1;
    }
  }

  /** A queue in which `c` is a thousand behind `top`. */
  function LeftBehind(top: nat, c: nat): Wfq {
    Wfq([Entry(top, 1.0, 1000.0), Entry(c, 1.0, 2000.0)], [])
  }

  /** A run of charges of 1 in which `top` is served more than twice that ahead of `c`, though both stay runnable. */
  ghost predicate UnfairRun(w: Wfq, steps: seq<Step>, top: nat, c: nat) {
    BothRunnable(w, steps, 1.0, top, c) &&
    RunService(w, steps, 1.0, top, c, top) > RunService(w, steps, 1.0, top, c, c) + 2.0 * 1.0
  }

  /** From there `top` is served three times while `c`, as runnable as `top`, is not served at all. */
  lemma LeftBehindIsUnfair(top: nat, c: nat)
    requires top != c
    ensures UnfairRun(LeftBehind(top, c), [Charge(1.0), Charge(1.0), Charge(1.0)], top, c)
  {
    var w0 := LeftBehind(top, c);
    TopCharged(top, c, 1000.0);
    TopCharged(top, c, 1001.0);
    TopCharged(top, c, 1002.0);
    var w1, w2, w3 := TwoLeft(top, c, 1001.0), TwoLeft(top, c, 1002.0), TwoLeft(top, c, 1003.0);
    TwoLeftRunnable(top, c, 1003.0);
    var s3, s2, s1: seq<Step> := [], [Charge(1.0)], [Charge(1.0), Charge(1.0)];
    var s0 := [Charge(1.0), Charge(1.0), Charge(1.0)];
    assert s2[1..] == s3 && s1[1..] == s2 && s0[1..] == s1;
    assert BothRunnable(w3, s3, 1.0, top, c);
    assert BothRunnable(w2, s2, 1.0, top, c) && RunService(w2, s2, 1.0, top, c, top) == 1.0;
    assert BothRunnable(w1, s1, 1.0, top, c) && RunService(w1, s1, 1.0, top, c, top) == 2.0;
    assert w0 == TwoLeft(top, c, 1000.0);
  }

  function TwoLeft(top: nat, c: nat, pass: real): Wfq {
    Wfq([Entry(top, 1.0, pass), Entry(c, 1.0, 2000.0)], [])
  }

  lemma TwoLeftRunnable(top: nat, c: nat, pass: real)
    requires top != c
    ensures Runnable(TwoLeft(top, c, pass), top) && Runnable(TwoLeft(top, c, pass), c)
  {
    var q := TwoLeft(top, c, pass).runnable;
    assert q[1..] == [q[1]] && [q[1]][1..] == [];
    assert Bag(q[1..]) == multiset{c} && Bag(q) == multiset{top} + multiset{c};
  }

  lemma TopCharged(top: nat, c: nat, pass: real)
    requires top != c && pass < 1999.0
    ensures var w := TwoLeft(top, c, pass);
      && Runnable(w, top) && Runnable(w, c) && Possible(w, Charge(1.0), 1.0)
      && Next(w, Charge(1.0), 1.0) == TwoLeft(top, c, pass + 1.0)
      && Service(w, Charge(1.0), top) == 1.0 && Service(w, Charge(1.0), c) == 0.0
  {
    TwoLeftRunnable(top, c, pass);
    var q := TwoLeft(top, c, pass).runnable;
    assert q[1..] == [q[1]];
    var e := q[0].(pass := pass + 1.0);
    assert Push([q[1]], e) == [e] + [q[1]];
  }

  /**
   A child added while it is blocked stores the minimum pass, and waking reads that as a penalty: added to a queue
   at 1000 it is a thousand behind when it wakes, and its service falls behind by more than twice the charge.
   */
  lemma AddBlockedLosesFairness(c: nat, top: nat)
    requires top != c
    ensures var q := [Entry(top, 1.0, 1000.0)];
      && Spread(Wfq(q, []), 1.0)
      && Wfq(Rejoined(q, Entry(c, 1.0, NextPass(q))), []) == LeftBehind(top, c)
    ensures UnfairRun(LeftBehind(top, c), [Charge(1.0), Charge(1.0), Charge(1.0)], top, c)
  {
    var q := [Entry(top, 1.0, 1000.0)];
    var e := Entry(c, 1.0, 2000.0);
    assert q[1..] == [];
    assert Push([], e) == [e] + [];
    assert Rejoined(q, Entry(c, 1.0, 1000.0)) == [q[0], e];
    LeftBehindIsUnfair(top, c);
  }
}

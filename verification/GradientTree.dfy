/**
 The w-ary tree over the buckets of Eiffel's gradient queue (kernel/sch_eiffel/sch_eiffel.c:119-247).
 The children of node n are W*n+1 .. W*n+W; nodes from `s` on are the buckets themselves. Each node
 keeps a bitmap `a` of its non-empty children and the number `c` of non-empty buckets below it.
 */
module GradientTree {
  import opened Words
  import opened SlotMap

  /** The word length of a node: `base` in `gq_init`. */
  const W: nat := 32

  /** `struct curvature_desc`. */
  datatype Desc = Desc(a: nat, c: nat, abcI: nat, wwI: nat)

  // ----- the shape of the tree -----

  /** The first node of depth `d`. */
  function LevelStart(d: nat): nat {
    if d == 0 then 0 else W * LevelStart(d - 1) + 1
  }

  /** `x * W^k`: the first bucket below the `x`-th node of a level `k` above the buckets. */
  function Span(x: nat, k: nat): nat
    decreases k
  {
    if k == 0 then x else Span(W * x, k - 1)
  }

  predicate AtDepth(n: nat, d: nat) {
    LevelStart(d) <= n < LevelStart(d + 1)
  }

  /** The `j`-th child of a node, a node's parent, and its position among the parent's children. */
  function Child(n: nat, j: nat): nat {
    W * n + 1 + j
  }

  function Parent(n: nat): nat
    requires n > 0
  {
    if n <= W then 0 else Parent(n - W) + 1
  }

  function Slot(n: nat): nat
    requires n > 0
  {
    if n <= W then n - 1 else Slot(n - W)
  }

  lemma {:induction false} ChildOfParent(n: nat)
    requires n > 0
    ensures Child(Parent(n), Slot(n)) == n && Slot(n) < W && Parent(n) < n
  {
    if n > W {
      ChildOfParent(n - W);
    }
  }

  lemma {:induction false} ParentOfChild(n: nat, j: nat)
    requires j < W
    ensures Parent(Child(n, j)) == n && Slot(Child(n, j)) == j
  {
    if n > 0 {
      assert Child(n, j) - W == Child(n - 1, j);
      ParentOfChild(n - 1, j);
    }
  }

  /** Where both climbs start: the parent of bucket `index` and the bucket's position there. */
  method StartOfClimb(s: nat, index: nat) returns (parentI: nat, wI: nat)
    requires s > 0
    ensures parentI == Parent(s + index) && wI == Slot(s + index)
  {
    ChildOfParent(s + index);
    parentI, wI := (s + index - 1) / W, (s + index - 1) % W;
  }

  lemma {:induction false} LevelStartMonotone(d: nat, e: nat)
    requires d <= e
    ensures LevelStart(d) <= LevelStart(e)
    decreases e
  {
    if d < e {
      LevelStartMonotone(d, e - 1);
    }
  }

  lemma ParentDepth(n: nat, d: nat)
    requires AtDepth(n, d + 1)
    ensures n > 0 && AtDepth(Parent(n), d)
  {
    ChildOfParent(n);
  }

  lemma {:induction false} SpanStep(x: nat, k: nat)
    ensures Span(x, k + 1) == W * Span(x, k)
    decreases k
  {
    if k > 0 {
      SpanStep(W * x, k - 1);
    }
  }

  /** Level `d` holds `W^d` nodes. */
  lemma {:induction false} LevelWidth(d: nat)
    ensures LevelStart(d + 1) == LevelStart(d) + Span(1, d)
    decreases d
  {
    if d > 0 {
      LevelWidth(d - 1);
      SpanStep(1, d - 1);
    }
  }

  lemma {:induction false} SpanMonotone(x: nat, y: nat, k: nat)
    requires x <= y
    ensures Span(x, k) <= Span(y, k)
    decreases k
  {
    if k > 0 {
      SpanMonotone(W * x, W * y, k - 1);
    }
  }

  // ----- what a node says about its children -----

  function Occupied(b: Buckets, i: nat): nat {
    if i < |b| && b[i] != [] then 1 else 0
  }

  /** The count a node or bucket contributes to its parent. */
  function Val(m: seq<Desc>, b: Buckets, n: nat): nat {
    if n < |m| then m[n].c else Occupied(b, n - |m|)
  }

  function ChildSum(m: seq<Desc>, b: Buckets, n: nat, k: nat): nat
    decreases k
  {
    if k == 0 then 0 else ChildSum(m, b, n, k - 1) + Val(m, b, Child(n, k - 1))
  }

  ghost predicate BitsOk(m: seq<Desc>, b: Buckets, n: nat, a: nat) {
    forall j: nat :: TestBit(a, j) <==> j < W && Val(m, b, Child(n, j)) > 0
  }

  ghost predicate NodeOk(m: seq<Desc>, b: Buckets, n: nat)
    requires n < |m|
  {
    m[n].c == ChildSum(m, b, n, W) && BitsOk(m, b, n, m[n].a)
  }

  ghost predicate LinksOk(m: seq<Desc>) {
    forall n :: 0 < n < |m| ==> m[n].abcI == Parent(n) && m[n].wwI == Slot(n)
  }

  ghost predicate TreeOk(m: seq<Desc>, b: Buckets, l: nat) {
    && l > 0 && |m| == LevelStart(l) && |b| <= Span(1, l)
    && LinksOk(m)
    && forall n {:trigger NodeOk(m, b, n)} :: 0 <= n < |m| ==> NodeOk(m, b, n)
  }

  lemma {:induction false} ChildSumAgrees(m: seq<Desc>, b: Buckets, m': seq<Desc>, b': Buckets, n: nat, k: nat)
    requires forall j: nat :: j < k ==> Val(m', b', Child(n, j)) == Val(m, b, Child(n, j))
    ensures ChildSum(m', b', n, k) == ChildSum(m, b, n, k)
    decreases k
  {
    if k > 0 {
      ChildSumAgrees(m, b, m', b', n, k - 1);
    }
  }

  /** Changing the value of child `x` changes the sum by as much. */
  lemma {:induction false} ChildSumBump(m: seq<Desc>, b: Buckets, m': seq<Desc>, b': Buckets, n: nat, x: nat, k: nat)
    requires x < k
    requires forall j: nat :: j < k && j != x ==> Val(m', b', Child(n, j)) == Val(m, b, Child(n, j))
    ensures ChildSum(m', b', n, k) - ChildSum(m, b, n, k) == Val(m', b', Child(n, x)) - Val(m, b, Child(n, x))
    decreases k
  {
    if x == k - 1 {
      ChildSumAgrees(m, b, m', b', n, k - 1);
    } else {
      ChildSumBump(m, b, m', b', n, x, k - 1);
    }
  }

  lemma {:induction false} ChildSumAtLeast(m: seq<Desc>, b: Buckets, n: nat, x: nat, k: nat)
    requires x < k
    ensures ChildSum(m, b, n, k) >= Val(m, b, Child(n, x))
    decreases k
  {
    if x < k - 1 {
      ChildSumAtLeast(m, b, n, x, k - 1);
    }
  }

  // ----- what the local invariant means for the whole tree -----

  /** The number of non-empty buckets in `[lo, hi)`. */
  function Count(b: Buckets, lo: nat, hi: nat): nat
    decreases hi
  {
    if hi <= lo then 0 else Count(b, lo, hi - 1) + Occupied(b, hi - 1)
  }

  lemma {:induction false} CountSplit(b: Buckets, lo: nat, mid: nat, hi: nat)
    requires lo <= mid <= hi
    ensures Count(b, lo, hi) == Count(b, lo, mid) + Count(b, mid, hi)
    decreases hi
  {
    if mid < hi {
      CountSplit(b, lo, mid, hi - 1);
    }
  }

  lemma {:induction false} CountZero(b: Buckets, lo: nat, hi: nat)
    requires Count(b, lo, hi) == 0
    ensures forall i: nat :: lo <= i < hi && i < |b| ==> b[i] == []
    decreases hi
  {
    if lo < hi {
      CountZero(b, lo, hi - 1);
    }
  }

  lemma CountOne(b: Buckets, i: nat)
    ensures Count(b, i, i + 1) == Occupied(b, i)
  {
    assert Count(b, i, i) == 0;
  }

  lemma NodeAtDepth(l: nat, d: nat, p: nat)
    requires d < l && p < Span(1, d)
    ensures LevelStart(d) + p < LevelStart(l)
  {
    LevelWidth(d);
    LevelStartMonotone(d + 1, l);
  }

  /** `c` is the number of non-empty buckets below the node: the `p`-th node of depth `d`. */
  lemma {:induction false} CountBelow(m: seq<Desc>, b: Buckets, l: nat, d: nat, p: nat)
    requires TreeOk(m, b, l) && d <= l && p < Span(1, d)
    ensures Val(m, b, LevelStart(d) + p) == Count(b, Span(p, l - d), Span(p + 1, l - d))
    decreases l - d, W + 1
  {
    if d == l {
      CountOne(b, p);
      assert Span(p, 0) == p && Span(p + 1, 0) == p + 1;
    } else {
      CountBelowChildren(m, b, l, d, p, W);
      NodeAtDepth(l, d, p);
      assert NodeOk(m, b, LevelStart(d) + p);
      SpanOfChildren(p, l - d);
    }
  }

  lemma {:induction false} CountBelowChildren(m: seq<Desc>, b: Buckets, l: nat, d: nat, p: nat, k: nat)
    requires TreeOk(m, b, l) && d < l && p < Span(1, d) && k <= W
    ensures ChildSum(m, b, LevelStart(d) + p, k) == Count(b, Span(W * p, l - d - 1), Span(W * p + k, l - d - 1))
    decreases l - d, k
  {
    if k > 0 {
      CountBelowChildren(m, b, l, d, p, k - 1);
      var x := W * p + k - 1;
      ChildInLevel(d, p, k - 1);
      CountBelow(m, b, l, d + 1, x);
      ChildAtDepth(d, p, k - 1);
      CountSpans(b, W * p, x, l - d - 1);
    }
  }

  lemma ChildInLevel(d: nat, p: nat, j: nat)
    requires p < Span(1, d) && j < W
    ensures W * p + j < Span(1, d + 1)
  {
    SpanStep(1, d);
  }

  lemma ChildAtDepth(d: nat, p: nat, j: nat)
    ensures Child(LevelStart(d) + p, j) == LevelStart(d + 1) + (W * p + j)
  {
  }

  lemma SpanOfChildren(p: nat, k: nat)
    requires k > 0
    ensures Span(p, k) == Span(W * p, k - 1) && Span(p + 1, k) == Span(W * p + W, k - 1)
  {
  }

  lemma CountSpans(b: Buckets, x: nat, y: nat, k: nat)
    requires x <= y
    ensures Count(b, Span(x, k), Span(y + 1, k)) == Count(b, Span(x, k), Span(y, k)) + Count(b, Span(y, k), Span(y + 1, k))
  {
    SpanMonotone(x, y, k);
    SpanMonotone(y, y + 1, k);
    CountSplit(b, Span(x, k), Span(y, k), Span(y + 1, k));
  }

  /** The root's count is zero exactly when every bucket is empty. */
  lemma RootCount(m: seq<Desc>, b: Buckets, l: nat)
    requires TreeOk(m, b, l)
    ensures |m| > 0 && m[0].c == Count(b, 0, |b|)
    ensures m[0].c == 0 <==> forall i :: 0 <= i < |b| ==> b[i] == []
  {
    LevelStartMonotone(1, l);
    CountBelow(m, b, l, 0, 0);
    SpanZero(l);
    CountSplit(b, 0, |b|, Span(1, l));
    CountBeyond(b, |b|, Span(1, l));
    if m[0].c == 0 {
      CountZero(b, 0, |b|);
    } else if forall i :: 0 <= i < |b| ==> b[i] == [] {
      CountEmpty(b, 0, |b|);
    }
  }

  lemma {:induction false} SpanZero(k: nat)
    ensures Span(0, k) == 0
    decreases k
  {
    if k > 0 {
      SpanZero(k - 1);
    }
  }

  lemma {:induction false} CountBeyond(b: Buckets, lo: nat, hi: nat)
    requires |b| <= lo
    ensures Count(b, lo, hi) == 0
    decreases hi
  {
    if lo < hi {
      CountBeyond(b, lo, hi - 1);
    }
  }

  lemma {:induction false} CountEmpty(b: Buckets, lo: nat, hi: nat)
    requires forall i :: 0 <= i < |b| ==> b[i] == []
    ensures Count(b, lo, hi) == 0
    decreases hi
  {
    if lo < hi {
      CountEmpty(b, lo, hi - 1);
    }
  }

  // ----- descending to the least non-empty bucket -----

  /** Node `p` of depth `d` has a non-empty bucket below it and no bucket before it is non-empty. */
  ghost predicate LeastBelow(m: seq<Desc>, b: Buckets, l: nat, d: nat, p: nat) {
    && d <= l && p < Span(1, d)
    && Val(m, b, LevelStart(d) + p) > 0
    && Count(b, 0, Span(p, l - d)) == 0
  }

  /** The lowest bit of a node with a positive count names its first non-empty child. */
  lemma LowestChild(m: seq<Desc>, b: Buckets, n: nat)
    requires n < |m| && NodeOk(m, b, n) && m[n].c > 0
    ensures m[n].a > 0 && Ffs(m[n].a) < W
    ensures Val(m, b, Child(n, Ffs(m[n].a))) > 0
    ensures forall i: nat :: i < Ffs(m[n].a) ==> Val(m, b, Child(n, i)) == 0
  {
    var x := PositiveChild(m, b, n, W);
    assert TestBit(m[n].a, x);
    if m[n].a == 0 {
      ZeroHasNoBits(x);
    }
    FfsIsLowestBit(m[n].a);
    forall i: nat | i < Ffs(m[n].a) ensures Val(m, b, Child(n, i)) == 0 {
      assert !TestBit(m[n].a, i);
    }
  }

  lemma {:induction false} PositiveChild(m: seq<Desc>, b: Buckets, n: nat, k: nat) returns (j: nat)
    requires ChildSum(m, b, n, k) > 0
    ensures j < k && Val(m, b, Child(n, j)) > 0
    decreases k
  {
    if Val(m, b, Child(n, k - 1)) > 0 {
      j := k - 1;
    } else {
      j := PositiveChild(m, b, n, k - 1);
    }
  }

  lemma LeastChild(m: seq<Desc>, b: Buckets, l: nat, d: nat, p: nat)
    requires TreeOk(m, b, l) && d < l && LeastBelow(m, b, l, d, p)
    ensures LevelStart(d) + p < |m| && m[LevelStart(d) + p].a > 0
    ensures var j := Ffs(m[LevelStart(d) + p].a);
      && Child(LevelStart(d) + p, j) == LevelStart(d + 1) + (W * p + j)
      && LeastBelow(m, b, l, d + 1, W * p + j)
  {
    var n := LowestOf(m, b, l, d, p);
    var j := Ffs(m[n].a);
    EmptyBefore(m, b, l, d, p, n, j);
    ChildInLevel(d, p, j);
    ChildAtDepth(d, p, j);
  }

  lemma LowestOf(m: seq<Desc>, b: Buckets, l: nat, d: nat, p: nat) returns (n: nat)
    requires TreeOk(m, b, l) && d < l && LeastBelow(m, b, l, d, p)
    ensures n == LevelStart(d) + p < |m| && m[n].a > 0 && Ffs(m[n].a) < W
    ensures Val(m, b, Child(n, Ffs(m[n].a))) > 0
    ensures forall i: nat :: i < Ffs(m[n].a) ==> Val(m, b, Child(n, i)) == 0
  {
    n := LevelStart(d) + p;
    NodeAtDepth(l, d, p);
    assert NodeOk(m, b, n);
    LowestChild(m, b, n);
  }

  /** If nothing is before a node and its first `j` children are empty, nothing is before child `j`. */
  lemma EmptyBefore(m: seq<Desc>, b: Buckets, l: nat, d: nat, p: nat, n: nat, j: nat)
    requires TreeOk(m, b, l) && d < l && p < Span(1, d) && j <= W && n == LevelStart(d) + p
    requires Count(b, 0, Span(p, l - d)) == 0
    requires forall i: nat :: i < j ==> Val(m, b, Child(n, i)) == 0
    ensures Count(b, 0, Span(W * p + j, l - d - 1)) == 0
  {
    CountBelowChildren(m, b, l, d, p, j);
    ZeroSum(m, b, n, j);
    SpanMonotone(W * p, W * p + j, l - d - 1);
    CountSplit(b, 0, Span(W * p, l - d - 1), Span(W * p + j, l - d - 1));
  }

  lemma {:induction false} ZeroSum(m: seq<Desc>, b: Buckets, n: nat, k: nat)
    requires forall i: nat :: i < k ==> Val(m, b, Child(n, i)) == 0
    ensures ChildSum(m, b, n, k) == 0
    decreases k
  {
    if k > 0 {
      ZeroSum(m, b, n, k - 1);
    }
  }

  /** Reaching the buckets: the least non-empty one. */
  lemma LeastBucket(m: seq<Desc>, b: Buckets, l: nat, p: nat)
    requires TreeOk(m, b, l) && LeastBelow(m, b, l, l, p)
    ensures p < |b| && b[p] != []
    ensures forall i :: 0 <= i < p ==> b[i] == []
  {
    CountZero(b, 0, p);
  }

  lemma LeastAtRoot(m: seq<Desc>, b: Buckets, l: nat)
    requires TreeOk(m, b, l)
    ensures |m| > 0
    ensures m[0].c > 0 ==> LeastBelow(m, b, l, 0, 0)
  {
    LevelStartMonotone(1, l);
    SpanZero(l);
  }

  /** `get_min_index` on a tree that is not empty: the least non-empty bucket. */
  method MinIndex(meta: array<Desc>, s: nat, l: nat, ghost b: Buckets) returns (index: nat)
    requires TreeOk(meta[..], b, l) && s == meta.Length && s > 0 && meta[0].c > 0
    ensures index < |b| && b[index] != []
    ensures forall i :: 0 <= i < index ==> b[i] == []
  {
    ghost var m := meta[..];
    LeastAtRoot(m, b, l);
    LeastChild(m, b, l, 0, 0);
    var I: nat := Ffs(meta[0].a) + 1;
    ghost var p: nat := Ffs(meta[0].a);
    var i: nat := 1;
    while i < l
      invariant 1 <= i <= l && I == LevelStart(i) + p
      invariant LeastBelow(m, b, l, i, p)
    {
      LeastChild(m, b, l, i, p);
      assert meta[I] == m[I];
      p := W * p + Ffs(meta[I].a);
      I := W * I + Ffs(meta[I].a) + 1;
      i := i + 1;
    }
    index := I - s;
    LeastBucket(m, b, l, p);
  }

  // ----- climbing: a bucket became non-empty, or empty -----

  /** The bitmap of the parent of `cur` while its bit for `cur` still tells the old value. */
  ghost predicate StaleBits(m: seq<Desc>, b: Buckets, cur: nat, delta: int)
    requires cur > 0 && Parent(cur) < |m|
  {
    forall j: nat :: TestBit(m[Parent(cur)].a, j) <==>
      j < W && (if j == Slot(cur) then Val(m, b, cur) > delta else Val(m, b, Child(Parent(cur), j)) > 0)
  }

  /**
   Everything is in order except that the parent of `cur` has not yet heard of a change by `delta`
   of the value of `cur`.
   */
  ghost predicate Pending(m: seq<Desc>, b: Buckets, cur: nat, delta: int) {
    && 0 < cur && Parent(cur) < |m|
    && Val(m, b, cur) >= delta
    && m[Parent(cur)].c + delta == ChildSum(m, b, Parent(cur), W)
    && StaleBits(m, b, cur, delta)
    && (forall n {:trigger NodeOk(m, b, n)} :: 0 <= n < |m| && n != Parent(cur) ==> NodeOk(m, b, n))
  }

  ghost predicate AllOk(m: seq<Desc>, b: Buckets) {
    forall n {:trigger NodeOk(m, b, n)} :: 0 <= n < |m| ==> NodeOk(m, b, n)
  }

  /** If only `x` changes value, a node that is not its parent stays in order. */
  lemma OtherNode(m: seq<Desc>, b: Buckets, m': seq<Desc>, b': Buckets, x: nat, n: nat)
    requires n < |m| == |m'| && m'[n] == m[n] && NodeOk(m, b, n)
    requires x > 0 ==> n != Parent(x)
    requires forall i: nat :: i != x ==> Val(m', b', i) == Val(m, b, i)
    ensures NodeOk(m', b', n)
  {
    forall j: nat | j < W ensures Val(m', b', Child(n, j)) == Val(m, b, Child(n, j)) {
      ParentOfChild(n, j);
    }
    ChildSumAgrees(m, b, m', b', n, W);
  }

  /** If only `x` changes value, by `delta`, its parent is pending. */
  lemma ParentPending(m: seq<Desc>, b: Buckets, m': seq<Desc>, b': Buckets, x: nat, delta: int)
    requires 0 < x && Parent(x) < |m| == |m'| && m'[Parent(x)] == m[Parent(x)] && NodeOk(m, b, Parent(x))
    requires forall i: nat :: i != x ==> Val(m', b', i) == Val(m, b, i)
    requires Val(m', b', x) == Val(m, b, x) + delta
    requires forall n {:trigger NodeOk(m', b', n)} :: 0 <= n < |m| && n != Parent(x) ==> NodeOk(m', b', n)
    ensures Pending(m', b', x, delta)
  {
    var q := Parent(x);
    ChildOfParent(x);
    forall j: nat | j < W && j != Slot(x) ensures Val(m', b', Child(q, j)) == Val(m, b, Child(q, j)) {
      ParentOfChild(q, j);
    }
    ChildSumBump(m, b, m', b', q, Slot(x), W);
  }

  lemma LeafDepth(l: nat, index: nat, n: nat)
    requires l > 0 && index < n <= Span(1, l)
    ensures var x := LevelStart(l) + index; AtDepth(x, l) && x > 0 && Parent(x) < LevelStart(l)
  {
    LevelWidth(l);
    ParentDepth(LevelStart(l) + index, l - 1);
  }

  lemma LeafChanges(m: seq<Desc>, b: Buckets, b': Buckets, x: nat, delta: int)
    requires AllOk(m, b) && x > 0 && Parent(x) < |m|
    requires forall i: nat :: i != x ==> Val(m, b', i) == Val(m, b, i)
    requires Val(m, b', x) == Val(m, b, x) + delta
    ensures Pending(m, b', x, delta)
  {
    assert NodeOk(m, b, Parent(x));
    forall n | 0 <= n < |m| && n != Parent(x) ensures NodeOk(m, b', n) {
      assert NodeOk(m, b, n);
      OtherNode(m, b, m, b', x, n);
    }
    ParentPending(m, b, m, b', x, delta);
  }

  lemma LeafValues(m: seq<Desc>, b: Buckets, b': Buckets, index: nat)
    requires index < |b| && |b'| == |b| && forall i :: 0 <= i < |b| && i != index ==> b'[i] == b[i]
    ensures forall i: nat :: i != |m| + index ==> Val(m, b', i) == Val(m, b, i)
    ensures Val(m, b', |m| + index) == Val(m, b, |m| + index) + (Occupied(b', index) - Occupied(b, index))
  {
  }

  /** A change of a bucket makes its own parent pending. */
  lemma LeafPending(m: seq<Desc>, b: Buckets, b': Buckets, l: nat, index: nat)
    requires TreeOk(m, b, l) && index < |b| && |b'| == |b|
    requires forall i :: 0 <= i < |b| && i != index ==> b'[i] == b[i]
    ensures AtDepth(|m| + index, l)
    ensures Pending(m, b', |m| + index, Occupied(b', index) - Occupied(b, index))
  {
    var x, delta := |m| + index, Occupied(b', index) - Occupied(b, index);
    LeafDepth(l, index, |b|);
    LeafValues(m, b, b', index);
    assert Val(m, b', x) == Val(m, b, x) + delta && AllOk(m, b);
    LeafChanges(m, b, b', x, delta);
  }

  /** `m'` is `m` with the parent of `cur` brought up to date. */
  ghost predicate Updated(m: seq<Desc>, m': seq<Desc>, b: Buckets, cur: nat, delta: int)
    requires cur > 0 && Parent(cur) < |m|
  {
    var p := Parent(cur);
    && |m'| == |m| && m'[p].c == m[p].c + delta
    && (forall n :: 0 <= n < |m| && n != p ==> m'[n] == m[n])
    && (forall j: nat :: TestBit(m'[p].a, j) <==> if j == Slot(cur) then Val(m, b, cur) > 0 else TestBit(m[p].a, j))
  }

  lemma UpdatedNode(m: seq<Desc>, m': seq<Desc>, b: Buckets, cur: nat, delta: int)
    requires Pending(m, b, cur, delta) && Updated(m, m', b, cur, delta)
    ensures NodeOk(m', b, Parent(cur))
  {
    var p := Parent(cur);
    ChildOfParent(cur);
    forall j: nat | j < W ensures Val(m', b, Child(p, j)) == Val(m, b, Child(p, j)) {
      assert Child(p, j) > p;
    }
    ChildSumAgrees(m, b, m', b, p, W);
    assert BitsOk(m', b, p, m'[p].a);
  }

  lemma OthersStay(m: seq<Desc>, m': seq<Desc>, b: Buckets, p: nat)
    requires p < |m| == |m'| && forall n :: 0 <= n < |m| && n != p ==> m'[n] == m[n]
    requires forall n {:trigger NodeOk(m, b, n)} :: 0 <= n < |m| && n != p ==> NodeOk(m, b, n)
    requires forall i: nat :: i != p ==> Val(m', b, i) == Val(m, b, i)
    ensures forall n {:trigger NodeOk(m', b, n)} :: 0 <= n < |m| && n != p && (p > 0 ==> n != Parent(p)) ==> NodeOk(m', b, n)
  {
    forall n | 0 <= n < |m| && n != p && (p > 0 ==> n != Parent(p)) ensures NodeOk(m', b, n) {
      assert NodeOk(m, b, n);
      OtherNode(m, b, m', b, p, n);
    }
  }

  /** One step of the climb: once the parent of `cur` is updated, the parent's parent is pending. */
  lemma ClimbStep(m: seq<Desc>, m': seq<Desc>, b: Buckets, cur: nat, delta: int)
    requires Pending(m, b, cur, delta) && Updated(m, m', b, cur, delta)
    ensures Parent(cur) > 0 ==> Pending(m', b, Parent(cur), delta)
    ensures Parent(cur) == 0 ==> AllOk(m', b)
  {
    var p := Parent(cur);
    UpdatedNode(m, m', b, cur, delta);
    assert forall i: nat :: i != p ==> Val(m', b, i) == Val(m, b, i);
    OthersStay(m, m', b, p);
    if p > 0 {
      ChildOfParent(p);
      assert NodeOk(m, b, Parent(p));
      ParentPending(m, b, m', b, p, delta);
    }
  }

  /** What the climb keeps: at level `l - i` node `cur` has changed and its parent is to be told. */
  ghost predicate Climbing(m: seq<Desc>, b: Buckets, l: nat, i: nat, cur: nat, delta: int) {
    && i <= l && |m| == LevelStart(l) && AtDepth(cur, l - i) && LinksOk(m)
    && (if i < l then Pending(m, b, cur, delta) else AllOk(m, b))
  }

  lemma ParentLevel(n: nat, d: nat)
    requires AtDepth(n, d + 1)
    ensures n > 0 && AtDepth(Parent(n), d) && (Parent(n) > 0 <==> d > 0)
  {
    ParentDepth(n, d);
    if d > 0 {
      LevelStartMonotone(1, d);
    }
  }

  lemma ClimbOn(m: seq<Desc>, m': seq<Desc>, b: Buckets, l: nat, i: nat, cur: nat, delta: int)
    requires Climbing(m, b, l, i, cur, delta) && i < l && Updated(m, m', b, cur, delta)
    requires m'[Parent(cur)].abcI == m[Parent(cur)].abcI && m'[Parent(cur)].wwI == m[Parent(cur)].wwI
    ensures Climbing(m', b, l, i + 1, Parent(cur), delta)
    ensures Parent(cur) > 0 <==> i + 1 < l
  {
    ParentLevel(cur, l - i - 1);
    ClimbStep(m, m', b, cur, delta);
  }

  lemma ClimbValue(m: seq<Desc>, b: Buckets, cur: nat, delta: int)
    requires Pending(m, b, cur, delta)
    ensures m[Parent(cur)].c + delta >= Val(m, b, cur)
  {
    ChildOfParent(cur);
    ChildSumAtLeast(m, b, Parent(cur), Slot(cur), W);
  }

  /** The invariant of both climbs; `done` says that the node's ancestors keep their bits. */
  ghost predicate ClimbInv(m: seq<Desc>, b: Buckets, l: nat, i: nat, cur: nat, delta: int,
                           done: bool, parentI: nat, wI: nat) {
    && Climbing(m, b, l, i, cur, delta) && |b| <= Span(1, l) && l > 0
    && (done <==> Val(m, b, cur) > 0 && Val(m, b, cur) > delta)
    && (i < l ==> cur > 0 && parentI == Parent(cur) && wI == Slot(cur))
  }

  lemma ClimbEnd(m: seq<Desc>, b: Buckets, l: nat, cur: nat, delta: int, done: bool, parentI: nat, wI: nat)
    requires ClimbInv(m, b, l, l, cur, delta, done, parentI, wI)
    ensures TreeOk(m, b, l)
  {
  }

  lemma ClimbStart(m: seq<Desc>, b: Buckets, b': Buckets, l: nat, index: nat)
    requires TreeOk(m, b, l) && index < |b| == |b'| && Occupied(b', index) != Occupied(b, index)
    requires forall i :: 0 <= i < |b| && i != index ==> b'[i] == b[i]
    ensures |m| > 0
    ensures var cur := |m| + index;
      ClimbInv(m, b', l, 0, cur, Occupied(b', index) - Occupied(b, index), false, Parent(cur), Slot(cur))
  {
    LevelStartMonotone(1, l);
    LeafPending(m, b, b', l, index);
  }

  /** The body of the loop in `gq_push`: stop setting bits once a count exceeded one. */
  lemma AddStep(m: seq<Desc>, b: Buckets, l: nat, i: nat, cur: nat, done: bool, parentI: nat, wI: nat)
    requires ClimbInv(m, b, l, i, cur, 1, done, parentI, wI) && i < l
    ensures parentI < |m| && m[parentI].c + 1 >= 0
    ensures var desc := m[parentI].(a := if done then m[parentI].a else SetBit(m[parentI].a, wI), c := m[parentI].c + 1);
      ClimbInv(m[parentI := desc], b, l, i + 1, parentI, 1, done || desc.c > 1, desc.abcI, desc.wwI)
  {
    ClimbValue(m, b, cur, 1);
    ChildOfParent(cur);
    var a := if done then m[parentI].a else SetBit(m[parentI].a, wI);
    forall j: nat ensures TestBit(a, j) <==> if j == wI then Val(m, b, cur) > 0 else TestBit(m[parentI].a, j) {
      SetBitBits(m[parentI].a, wI, j);
    }
    ClimbOn(m, m[parentI := m[parentI].(a := a, c := m[parentI].c + 1)], b, l, i, cur, 1);
  }

  /** The body of the loop in `gq_extract`: stop clearing bits once a count stays positive. */
  lemma RemoveStep(m: seq<Desc>, b: Buckets, l: nat, i: nat, cur: nat, done: bool, parentI: nat, wI: nat)
    requires ClimbInv(m, b, l, i, cur, -1, done, parentI, wI) && i < l
    ensures parentI < |m| && m[parentI].c - 1 >= 0
    ensures var desc := m[parentI].(a := if done then m[parentI].a else ClearBit(m[parentI].a, wI), c := m[parentI].c - 1);
      ClimbInv(m[parentI := desc], b, l, i + 1, parentI, -1, done || desc.c > 0, desc.abcI, desc.wwI)
  {
    ClimbValue(m, b, cur, -1);
    ChildOfParent(cur);
    var a := if done then m[parentI].a else ClearBit(m[parentI].a, wI);
    forall j: nat ensures TestBit(a, j) <==> if j == wI then Val(m, b, cur) > 0 else TestBit(m[parentI].a, j) {
      ClearBitBits(m[parentI].a, wI, j);
    }
    ClimbOn(m, m[parentI := m[parentI].(a := a, c := m[parentI].c - 1)], b, l, i, cur, -1);
  }

  /** One turn of the loop in `gq_push`. */
  method AddToNode(meta: array<Desc>, parentI: nat, wI: nat, wasDone: bool,
                ghost b: Buckets, ghost l: nat, ghost i: nat, ghost cur: nat)
    returns (done: bool, nextI: nat, nextW: nat)
    requires i < l && ClimbInv(meta[..], b, l, i, cur, 1, wasDone, parentI, wI)
    modifies meta
    ensures ClimbInv(meta[..], b, l, i + 1, parentI, 1, done, nextI, nextW)
  {
    ghost var m := meta[..];
    AddStep(m, b, l, i, cur, wasDone, parentI, wI);
    ghost var after :=
      m[parentI].(a := if wasDone then m[parentI].a else SetBit(m[parentI].a, wI), c := m[parentI].c + 1);
    var desc := meta[parentI];
    done := wasDone;
    if !done {
      desc := desc.(a := SetBit(desc.a, wI));
    }
    desc := desc.(c := desc.c + 1);
    if desc.c > 1 {
      done := true;
    }
    meta[parentI] := desc;
    assert desc == after && meta[..] == m[parentI := after];
    nextI, nextW := desc.abcI, desc.wwI;
  }

  /** The loop of the climb, from bucket or node `start` to the root. */
  method AddAbove(meta: array<Desc>, l: nat, firstI: nat, firstW: nat, ghost b: Buckets, ghost start: nat)
    requires ClimbInv(meta[..], b, l, 0, start, 1, false, firstI, firstW)
    modifies meta
    ensures TreeOk(meta[..], b, l)
  {
    var parentI, wI, done := firstI, firstW, false;
    ghost var cur := start;
    var i: nat := 0;
    while i < l
      invariant i <= l && ClimbInv(meta[..], b, l, i, cur, 1, done, parentI, wI)
    {
      ghost var told := parentI;
      done, parentI, wI := AddToNode(meta, parentI, wI, done, b, l, i, cur);
      cur, i := told, i + 1;
    }
    ClimbEnd(meta[..], b, l, cur, 1, done, parentI, wI);
  }

  /** The climb of `gq_push` when bucket `index` was empty; `b` becomes `b'` when the packet is added. */
  method AddBucket(meta: array<Desc>, s: nat, l: nat, index: nat, ghost b: Buckets, ghost b': Buckets)
    requires TreeOk(meta[..], b, l) && s == meta.Length
    requires index < |b| == |b'| && b[index] == [] && b'[index] != []
    requires forall i :: 0 <= i < |b| && i != index ==> b'[i] == b[i]
    modifies meta
    ensures TreeOk(meta[..], b', l)
  {
    ClimbStart(meta[..], b, b', l, index);
    var parentI, wI := StartOfClimb(s, index);
    AddAbove(meta, l, parentI, wI, b', s + index);
  }

  /** One turn of the loop in `gq_extract`. */
  method RemoveFromNode(meta: array<Desc>, parentI: nat, wI: nat, wasDone: bool,
                ghost b: Buckets, ghost l: nat, ghost i: nat, ghost cur: nat)
    returns (done: bool, nextI: nat, nextW: nat)
    requires i < l && ClimbInv(meta[..], b, l, i, cur, -1, wasDone, parentI, wI)
    modifies meta
    ensures ClimbInv(meta[..], b, l, i + 1, parentI, -1, done, nextI, nextW)
  {
    ghost var m := meta[..];
    RemoveStep(m, b, l, i, cur, wasDone, parentI, wI);
    ghost var after :=
      m[parentI].(a := if wasDone then m[parentI].a else ClearBit(m[parentI].a, wI), c := m[parentI].c - 1);
    var desc := meta[parentI];
    done := wasDone;
    if !done {
      desc := desc.(a := ClearBit(desc.a, wI));
    }
    desc := desc.(c := desc.c - 1);
    if desc.c > 0 {
      done := true;
    }
    meta[parentI] := desc;
    assert desc == after && meta[..] == m[parentI := after];
    nextI, nextW := desc.abcI, desc.wwI;
  }

  /** The loop of the climb, from bucket or node `start` to the root. */
  method RemoveAbove(meta: array<Desc>, l: nat, firstI: nat, firstW: nat, ghost b: Buckets, ghost start: nat)
    requires ClimbInv(meta[..], b, l, 0, start, -1, false, firstI, firstW)
    modifies meta
    ensures TreeOk(meta[..], b, l)
  {
    var parentI, wI, done := firstI, firstW, false;
    ghost var cur := start;
    var i: nat := 0;
    while i < l
      invariant i <= l && ClimbInv(meta[..], b, l, i, cur, -1, done, parentI, wI)
    {
      ghost var told := parentI;
      done, parentI, wI := RemoveFromNode(meta, parentI, wI, done, b, l, i, cur);
      cur, i := told, i + 1;
    }
    ClimbEnd(meta[..], b, l, cur, -1, done, parentI, wI);
  }

  /** The climb of `gq_extract` when bucket `index` has just become empty: from `b` to `b'`. */
  method RemoveBucket(meta: array<Desc>, s: nat, l: nat, index: nat, ghost b: Buckets, ghost b': Buckets)
    requires TreeOk(meta[..], b, l) && s == meta.Length
    requires index < |b| == |b'| && b[index] != [] && b'[index] == []
    requires forall i :: 0 <= i < |b| && i != index ==> b'[i] == b[i]
    modifies meta
    ensures TreeOk(meta[..], b', l)
  {
    ClimbStart(meta[..], b, b', l, index);
    var parentI, wI := StartOfClimb(s, index);
    RemoveAbove(meta, l, parentI, wI, b', s + index);
  }

  /** A change that leaves every bucket as empty or non-empty as it was does not concern the tree. */
  lemma OccupancyOnly(m: seq<Desc>, b: Buckets, b': Buckets, l: nat)
    requires TreeOk(m, b, l) && |b'| == |b|
    requires forall i :: 0 <= i < |b| ==> (b'[i] == [] <==> b[i] == [])
    ensures TreeOk(m, b', l)
  {
    assert forall n: nat :: Val(m, b', n) == Val(m, b, n);
    forall n | 0 <= n < |m| ensures NodeOk(m, b', n) {
      assert NodeOk(m, b, n);
      ChildSumAgrees(m, b, m, b', n, W);
    }
  }
}

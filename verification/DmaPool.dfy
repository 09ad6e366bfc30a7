/**
 The DMA memory pool (bess/core/memory.cc:317-445): first-fit allocation out of an ordered set of
 free regions that are merged again on release.
 */
module DmaPool {
  import opened Granules
  import opened Wrappers

  datatype Region = Region(addr: nat, size: nat) {
    function End(): nat {
      addr + size
    }
  }

  const PAGE: nat := 4096

  /** `align_ceil(v, 4096)`. */
  function AlignCeil(v: nat): nat {
    (v + PAGE - 1) / PAGE * PAGE
  }

  ghost predicate Contains(r: Region, x: nat) {
    r.addr <= x < r.End()
  }

  /** One of the first `n` regions contains `x`. */
  ghost predicate CoversUpTo(rs: seq<Region>, n: nat, x: nat)
    requires n <= |rs|
  {
    n > 0 && (Contains(rs[n - 1], x) || CoversUpTo(rs, n - 1, x))
  }

  ghost predicate Covers(rs: seq<Region>, x: nat) {
    CoversUpTo(rs, |rs|, x)
  }

  lemma {:induction false} CoversUpToIff(rs: seq<Region>, n: nat, x: nat)
    requires n <= |rs|
    ensures CoversUpTo(rs, n, x) <==> exists i :: 0 <= i < n && Contains(rs[i], x)
    decreases n
  {
    if n > 0 {
      CoversUpToIff(rs, n - 1, x);
      if Contains(rs[n - 1], x) {
      }
    }
  }

  lemma CoversAt(rs: seq<Region>, i: nat, x: nat)
    requires i < |rs| && Contains(rs[i], x)
    ensures Covers(rs, x)
  {
    CoversUpToIff(rs, |rs|, x);
  }

  lemma CoversFind(rs: seq<Region>, x: nat) returns (i: nat)
    requires Covers(rs, x)
    ensures i < |rs| && Contains(rs[i], x)
  {
    CoversUpToIff(rs, |rs|, x);
    i :| i < |rs| && Contains(rs[i], x);
  }

  /** `x % 4096 == 0`. */
  predicate Aligned(x: nat) {
    Rem(x, PAGE) == 0
  }

  lemma AlignedSum(x: nat, y: nat)
    requires Aligned(x) && Aligned(y)
    ensures Aligned(x + y)
  {
    QuotTimes(x, PAGE);
    QuotTimes(y, PAGE);
    TimesSum(Quot(x, PAGE), Quot(y, PAGE), PAGE);
    QuotUnique(x + y, PAGE, Quot(x, PAGE) + Quot(y, PAGE));
    QuotTimes(x + y, PAGE);
  }

  predicate Usable(r: Region) {
    r.addr > 0 && r.size > 0 && Aligned(r.addr) && Aligned(r.size)
  }

  /** Sorted, and no two regions overlap or touch. */
  ghost predicate Canonical(rs: seq<Region>) {
    && (forall i :: 0 <= i < |rs| ==> Usable(rs[i]))
    && (forall i, j :: 0 <= i < j < |rs| ==> rs[i].End() < rs[j].addr)
  }

  function SumUpTo(rs: seq<Region>, n: nat): nat
    requires n <= |rs|
  {
    if n == 0 then 0 else SumUpTo(rs, n - 1) + rs[n - 1].size
  }

  function SumSize(rs: seq<Region>): nat {
    SumUpTo(rs, |rs|)
  }

  lemma {:induction false} PrefixAgrees(a: seq<Region>, b: seq<Region>, n: nat)
    requires n <= |a| && n <= |b| && forall i :: 0 <= i < n ==> a[i] == b[i]
    ensures SumUpTo(a, n) == SumUpTo(b, n)
    ensures forall x: nat :: CoversUpTo(a, n, x) <==> CoversUpTo(b, n, x)
    decreases n
  {
    if n > 0 {
      PrefixAgrees(a, b, n - 1);
    }
  }

  lemma {:induction false} AppendUpTo(a: seq<Region>, b: seq<Region>, n: nat)
    requires n <= |b|
    ensures SumUpTo(a + b, |a| + n) == SumSize(a) + SumUpTo(b, n)
    ensures forall x: nat :: CoversUpTo(a + b, |a| + n, x) <==> Covers(a, x) || CoversUpTo(b, n, x)
    decreases n
  {
    if n > 0 {
      AppendUpTo(a, b, n - 1);
      assert (a + b)[|a| + n - 1] == b[n - 1];
    } else {
      PrefixAgrees(a + b, a, |a|);
    }
  }

  /** Size and coverage of a concatenation. */
  lemma Append(a: seq<Region>, b: seq<Region>)
    ensures SumSize(a + b) == SumSize(a) + SumSize(b)
    ensures forall x: nat :: Covers(a + b, x) <==> Covers(a, x) || Covers(b, x)
  {
    AppendUpTo(a, b, |b|);
  }

  lemma Single(r: Region)
    ensures SumSize([r]) == r.size
    ensures forall x: nat :: Covers([r], x) <==> Contains(r, x)
  {
    assert SumUpTo([r], 1) == SumUpTo([r], 0) + r.size;
    forall x: nat ensures Covers([r], x) <==> Contains(r, x) {
      assert !CoversUpTo([r], 0, x);
    }
  }

  /** A canonical list is determined by the addresses it covers. */
  lemma {:induction false} CanonicalUnique(a: seq<Region>, b: seq<Region>)
    requires Canonical(a) && Canonical(b)
    requires forall x: nat :: Covers(a, x) <==> Covers(b, x)
    ensures a == b
    decreases |a|
  {
    if a != [] && b != [] {
      FirstAgrees(a, b);
      FirstAgrees(b, a);
      forall x: nat ensures Covers(a[1..], x) <==> Covers(b[1..], x) {
        TailCovers(a, x);
        TailCovers(b, x);
      }
      CanonicalUnique(a[1..], b[1..]);
    } else if a != [] {
      CoversAt(a, 0, a[0].addr);
    } else if b != [] {
      CoversAt(b, 0, b[0].addr);
    }
  }

  lemma FirstAgrees(a: seq<Region>, b: seq<Region>)
    requires Canonical(a) && Canonical(b) && a != [] && b != []
    requires forall x: nat :: Covers(a, x) <==> Covers(b, x)
    ensures b[0].addr <= a[0].addr
    ensures a[0].addr == b[0].addr ==> a[0].End() <= b[0].End()
  {
    CoversAt(a, 0, a[0].addr);
    var i := CoversFind(b, a[0].addr);
    if a[0].addr == b[0].addr && b[0].End() < a[0].End() {
      CoversAt(a, 0, b[0].End());
      var j := CoversFind(b, b[0].End());
      assert false;
    }
  }

  lemma TailCovers(a: seq<Region>, x: nat)
    requires Canonical(a) && a != []
    ensures Covers(a[1..], x) <==> Covers(a, x) && a[0].End() < x
  {
    assert a == [a[0]] + a[1..];
    Append([a[0]], a[1..]);
    Single(a[0]);
    if Covers(a[1..], x) {
      var i := CoversFind(a[1..], x);
      assert a[1..][i] == a[i + 1];
    }
  }

  // ----- adding and removing regions -----

  /** `std::set::lower_bound`. */
  function LowerBound(rs: seq<Region>, addr: nat): (i: nat)
    ensures i <= |rs|
    ensures forall j :: 0 <= j < i ==> rs[j].addr < addr
    ensures i < |rs| ==> addr <= rs[i].addr
  {
    if rs == [] || addr <= rs[0].addr then 0
    else
      var i := LowerBound(rs[1..], addr);
      assert forall j :: 0 < j < i + 1 ==> rs[j] == rs[1..][j - 1];
      i + 1
  }

  function InsertSorted(rs: seq<Region>, r: Region): seq<Region> {
    var i := LowerBound(rs, r.addr);
    rs[..i] + [r] + rs[i..]
  }

  /** `r` overlaps no region of `rs`. */
  ghost predicate Apart(rs: seq<Region>, r: Region) {
    forall i :: 0 <= i < |rs| ==> rs[i].End() <= r.addr || r.End() <= rs[i].addr
  }

  lemma ApartFromCovers(rs: seq<Region>, r: Region)
    requires Canonical(rs) && r.size > 0
    requires forall x: nat :: Contains(r, x) ==> !Covers(rs, x)
    ensures Apart(rs, r)
  {
    forall i | 0 <= i < |rs| ensures rs[i].End() <= r.addr || r.End() <= rs[i].addr {
      var x := if r.addr < rs[i].addr then rs[i].addr else r.addr;
      if Contains(r, x) && Contains(rs[i], x) {
        CoversAt(rs, i, x);
      }
    }
  }

  /** Putting `r` between a prefix and a suffix it does not touch. */
  lemma JoinCanonical(a: seq<Region>, r: Region, b: seq<Region>)
    requires Canonical(a) && Canonical(b) && Usable(r)
    requires a != [] ==> a[|a| - 1].End() < r.addr
    requires b != [] ==> r.End() < b[0].addr
    ensures Canonical(a + [r] + b)
  {
    var rs := a + [r] + b;
    forall i, j | 0 <= i < j < |rs| ensures rs[i].End() < rs[j].addr {
      if i < |a| {
        assert a[i].End() <= a[|a| - 1].End();
      }
      if j > |a| {
        assert b[0].addr <= b[j - |a| - 1].addr;
      }
    }
  }

  lemma Join(a: seq<Region>, r: Region, b: seq<Region>)
    ensures SumSize(a + [r] + b) == SumSize(a) + r.size + SumSize(b)
    ensures forall x: nat :: Covers(a + [r] + b, x) <==> Covers(a, x) || Contains(r, x) || Covers(b, x)
  {
    Append(a + [r], b);
    Append(a, [r]);
    Single(r);
  }

  lemma SliceCanonical(rs: seq<Region>, lo: nat, hi: nat)
    requires Canonical(rs) && lo <= hi <= |rs|
    ensures Canonical(rs[lo..hi])
  {
  }

  /** Two touching regions and their union. */
  lemma Joined(r: Region, s: Region)
    requires Usable(r) && Usable(s) && r.End() == s.addr
    ensures var u := Region(r.addr, r.size + s.size);
      Usable(u) && u.End() == s.End() && forall x: nat :: Contains(u, x) <==> Contains(r, x) || Contains(s, x)
  {
    AlignedSum(r.size, s.size);
  }

  /** `r` merged with the region before it if they touch: the rest of the prefix, and the result. */
  ghost predicate MergedPrev(before: seq<Region>, r: Region, a: seq<Region>, r1: Region) {
    if before != [] && before[|before| - 1].End() == r.addr
    then before == a + [before[|before| - 1]] && r1 == Region(before[|before| - 1].addr, r.size + before[|before| - 1].size)
    else a == before && r1 == r
  }

  /** `r` merged with the region after it if they touch. */
  ghost predicate MergedNext(r: Region, after: seq<Region>, r1: Region, b: seq<Region>) {
    if after != [] && r.End() == after[0].addr
    then b == after[1..] && r1 == Region(r.addr, r.size + after[0].size)
    else b == after && r1 == r
  }

  lemma PrefixCanonical(a: seq<Region>, last: Region)
    requires Canonical(a + [last])
    ensures Canonical(a) && Usable(last)
    ensures a != [] ==> a[|a| - 1].End() < last.addr
  {
    var al := a + [last];
    assert al[|a|] == last && forall i :: 0 <= i < |a| ==> al[i] == a[i];
  }

  lemma SuffixCanonical(first: Region, b: seq<Region>)
    requires Canonical([first] + b)
    ensures Canonical(b) && Usable(first)
    ensures b != [] ==> first.End() < b[0].addr
  {
    var fb := [first] + b;
    assert fb[0] == first && forall i :: 0 <= i < |b| ==> b[i] == fb[i + 1];
  }

  lemma MergedPrevSound(before: seq<Region>, r: Region, a: seq<Region>, r1: Region)
    requires Canonical(before) && Usable(r) && (before != [] ==> before[|before| - 1].End() <= r.addr)
    requires MergedPrev(before, r, a, r1)
    ensures Canonical(a) && Usable(r1) && r1.End() == r.End()
    ensures a != [] ==> a[|a| - 1].End() < r1.addr
    ensures forall x: nat :: Covers(a, x) || Contains(r1, x) <==> Covers(before, x) || Contains(r, x)
    ensures SumSize(a) + r1.size == SumSize(before) + r.size
  {
    if before != [] && before[|before| - 1].End() == r.addr {
      var last := before[|before| - 1];
      PrefixCanonical(a, last);
      Append(a, [last]);
      Single(last);
      Joined(last, r);
    }
  }

  lemma MergedNextSound(r: Region, after: seq<Region>, r1: Region, b: seq<Region>)
    requires Canonical(after) && Usable(r) && (after != [] ==> r.End() <= after[0].addr)
    requires MergedNext(r, after, r1, b)
    ensures Canonical(b) && Usable(r1) && r1.addr == r.addr
    ensures b != [] ==> r1.End() < b[0].addr
    ensures forall x: nat :: Contains(r1, x) || Covers(b, x) <==> Contains(r, x) || Covers(after, x)
    ensures r1.size + SumSize(b) == r.size + SumSize(after)
  {
    if after != [] && r.End() == after[0].addr {
      assert after == [after[0]] + b;
      SuffixCanonical(after[0], b);
      Append([after[0]], b);
      Single(after[0]);
      Joined(r, after[0]);
    }
  }

  /** Merging `r` with what comes before and after it. */
  lemma MergedSound(before: seq<Region>, r: Region, after: seq<Region>,
                    a: seq<Region>, r1: Region, r2: Region, b: seq<Region>)
    requires Canonical(before) && Canonical(after) && Usable(r)
    requires before != [] ==> before[|before| - 1].End() <= r.addr
    requires after != [] ==> r.End() <= after[0].addr
    requires MergedPrev(before, r, a, r1) && MergedNext(r1, after, r2, b)
    ensures Canonical(a + [r2] + b)
    ensures SumSize(a + [r2] + b) == SumSize(before) + r.size + SumSize(after)
    ensures forall x: nat :: Covers(a + [r2] + b, x) <==> Covers(before, x) || Contains(r, x) || Covers(after, x)
  {
    MergedPrevSound(before, r, a, r1);
    MergedNextSound(r1, after, r2, b);
    JoinCanonical(a, r2, b);
    Join(a, r2, b);
  }

  lemma PartsOf(rs: seq<Region>, r: Region, i: nat)
    requires Canonical(rs) && Apart(rs, r) && r.size > 0 && i == LowerBound(rs, r.addr)
    ensures Canonical(rs[..i]) && Canonical(rs[i..])
    ensures i > 0 ==> rs[i - 1].End() <= r.addr
    ensures i < |rs| ==> r.End() <= rs[i].addr
  {
    SliceCanonical(rs, 0, i);
    SliceCanonical(rs, i, |rs|);
  }

  lemma SumAndCoverOfParts(rs: seq<Region>, i: nat)
    requires i <= |rs|
    ensures SumSize(rs) == SumSize(rs[..i]) + SumSize(rs[i..])
    ensures forall x: nat :: Covers(rs, x) <==> Covers(rs[..i], x) || Covers(rs[i..], x)
  {
    assert rs == rs[..i] + rs[i..];
    Append(rs[..i], rs[i..]);
  }

  class DmaMemoryPool {
    var regions: seq<Region>
    var alloced: map<nat, nat>
    var totalFreeBytes: nat
    /** The pool's memory: what the constructor collected. */
    ghost var initial: seq<Region>

    ghost predicate Valid()
      reads this
    {
      && Canonical(regions) && Canonical(initial)
      && totalFreeBytes == SumSize(regions)
      && BlocksOk(alloced)
      && Partition(initial, regions, alloced)
    }

    /** The pool over the hugepages obtained, in the order they were mapped. */
    constructor (pages: seq<Region>)
      requires forall i :: 0 <= i < |pages| ==> Usable(pages[i])
      requires forall i, j :: 0 <= i < j < |pages| ==> pages[i].End() <= pages[j].addr || pages[j].End() <= pages[i].addr
      ensures Valid() && regions == initial && alloced == map[]
      ensures forall x: nat :: Covers(initial, x) <==> Covers(pages, x)
      ensures totalFreeBytes == SumSize(pages)
    {
      regions, alloced, totalFreeBytes, initial := [], map[], 0, [];
      new;
      for n := 0 to |pages|
        invariant Canonical(regions) && alloced == map[]
        invariant forall x: nat :: Covers(regions, x) <==> Covers(pages[..n], x)
        invariant totalFreeBytes == SumSize(regions) == SumSize(pages[..n])
      {
        var page := pages[n];
        assert pages[..n + 1] == pages[..n] + [page];
        Append(pages[..n], [page]);
        Single(page);
        PageIsNew(pages, n, regions);
        AddRegion(page.addr, page.size);
        totalFreeBytes := totalFreeBytes + page.size;
      }
      assert pages[..|pages|] == pages;
      initial := regions;
    }

    /** The first half of `AddRegion`: merge with the region before position `at`, if it touches. */
    method MergeWithPrev(at: nat, region: Region) returns (next: nat, newRegion: Region, ghost a: seq<Region>)
      requires at <= |regions|
      modifies this`regions
      ensures MergedPrev(old(regions)[..at], region, a, newRegion)
      ensures regions == a + old(regions)[at..] && next == |a|
    {
      next, newRegion, a := at, region, regions[..at];
      if at > 0 && regions[at - 1].End() == region.addr {
        newRegion := Region(regions[at - 1].addr, region.size + regions[at - 1].size);
        next, a := at - 1, regions[..at - 1];
        assert regions[..at] == a + [regions[at - 1]];
        regions := Erase(regions, next);
      }
    }

    /** The second half: merge with the region at position `at`, if it touches. */
    method MergeWithNext(at: nat, region: Region) returns (newRegion: Region, ghost b: seq<Region>)
      requires at <= |regions|
      modifies this`regions
      ensures MergedNext(region, old(regions)[at..], newRegion, b)
      ensures regions == old(regions)[..at] + b
    {
      newRegion, b := region, regions[at..];
      if at < |regions| && region.End() == regions[at].addr {
        newRegion := Region(region.addr, region.size + regions[at].size);
        b := regions[at + 1..];
        regions := Erase(regions, at);
      }
    }

    /** Both halves. */
    method MergeAt(at: nat, region: Region) returns (newRegion: Region, ghost a: seq<Region>, ghost b: seq<Region>)
      requires at <= |regions| && Usable(region)
      requires Canonical(regions[..at]) && Canonical(regions[at..])
      requires at > 0 ==> regions[at - 1].End() <= region.addr
      requires at < |regions| ==> region.End() <= regions[at].addr
      modifies this`regions
      ensures regions == a + b && Canonical(a + [newRegion] + b)
      ensures SumSize(a + [newRegion] + b) == SumSize(old(regions)[..at]) + region.size + SumSize(old(regions)[at..])
      ensures forall x: nat :: Covers(a + [newRegion] + b, x) <==>
        Covers(old(regions)[..at], x) || Contains(region, x) || Covers(old(regions)[at..], x)
    {
      ghost var before, after := regions[..at], regions[at..];
      var next, merged;
      next, merged, a := MergeWithPrev(at, region);
      assert regions[..next] == a && regions[next..] == after;
      newRegion, b := MergeWithNext(next, merged);
      MergedSound(before, region, after, a, merged, newRegion, b);
    }

    /** `AddRegion`: merge with the neighbours that touch, then insert. */
    method AddRegion(addr: nat, size: nat)
      requires Canonical(regions) && Usable(Region(addr, size)) && Apart(regions, Region(addr, size))
      modifies this`regions
      ensures Canonical(regions)
      ensures forall x: nat :: Covers(regions, x) <==> Covers(old(regions), x) || Contains(Region(addr, size), x)
      ensures SumSize(regions) == SumSize(old(regions)) + size
    {
      var at := LowerBound(regions, addr);
      ghost var before, after := regions[..at], regions[at..];
      PartsOf(regions, Region(addr, size), at);
      SumAndCoverOfParts(regions, at);
      var newRegion, a, b := MergeAt(at, Region(addr, size));
      InsertBetween(a, newRegion, b);
      regions := InsertSorted(regions, newRegion);
    }

    /** `Alloc`: first fit. Returns 0, the null pointer, when no free region is large enough. */
    method Alloc(size: nat) returns (ret: nat)
      requires Valid() && size > 0
      modifies this`regions, this`alloced, this`totalFreeBytes
      ensures Valid()
      ensures ret == 0 <==> forall i :: 0 <= i < |old(regions)| ==> old(regions)[i].size < AlignCeil(size)
      ensures ret == 0 ==> regions == old(regions) && alloced == old(alloced) && totalFreeBytes == old(totalFreeBytes)
      ensures ret != 0 ==>
                && FirstFit(old(regions), ret, AlignCeil(size))
                && Taken(old(regions), old(alloced), regions, alloced, Region(ret, AlignCeil(size)))
                && totalFreeBytes == old(totalFreeBytes) - AlignCeil(size)
    {
      var alignedSize := AlignCeil(size);
      AlignCeilSound(size);
      ret := 0;
      for i := 0 to |regions|
        invariant regions == old(regions) && alloced == old(alloced) && totalFreeBytes == old(totalFreeBytes)
        invariant ret == 0 && forall j :: 0 <= j < i ==> regions[j].size < alignedSize
      {
        if regions[i].size >= alignedSize {
          ret := regions[i].addr;
          assert Usable(regions[i]);
          TakeFrom(i, alignedSize);
          return;
        }
      }
    }

    /** Move `size` bytes from the front of region `i` to the allocated blocks. */
    method TakeFrom(i: nat, size: nat)
      requires Valid() && i < |regions| && 0 < size <= regions[i].size && Aligned(size)
      modifies this`regions, this`alloced, this`totalFreeBytes
      ensures Valid()
      ensures Taken(old(regions), old(alloced), regions, alloced, Region(old(regions)[i].addr, size))
      ensures totalFreeBytes == old(totalFreeBytes) - size
    {
      var region := regions[i];
      ghost var rs, a, b := regions, regions[..i], regions[i + 1..];
      assert rs == a + [region] + b;
      ghost var rs' := CarveSound(a, region, b, size);
      TakenSound(initial, rs, alloced, rs', Region(region.addr, size));
      alloced := alloced[region.addr := size];
      regions := Erase(regions, i);
      if size < region.size {
        regions := InsertSorted(regions, Region(region.addr + size, region.size - size));
      }
      totalFreeBytes := totalFreeBytes - size;
    }

    /** `AllocUpto`: the size asked for if some region has it, otherwise the largest region. */
    method AllocUpto(size: nat) returns (ptr: nat, got: nat)
      requires Valid() && size > 0
      modifies this`regions, this`alloced, this`totalFreeBytes
      ensures Valid() && got <= size
      ensures (ptr == 0 <==> old(regions) == []) && (ptr == 0 ==> got == 0)
      ensures got == size <==> exists i :: 0 <= i < |old(regions)| && old(regions)[i].size >= AlignCeil(size)
      ensures ptr != 0 && got < size ==>
                && Region(ptr, got) in old(regions)
                && (forall i :: 0 <= i < |old(regions)| ==> old(regions)[i].size <= got)
                && Taken(old(regions), old(alloced), regions, alloced, Region(ptr, got))
                && totalFreeBytes == old(totalFreeBytes) - got
      ensures got == size ==>
                && FirstFit(old(regions), ptr, AlignCeil(size))
                && Taken(old(regions), old(alloced), regions, alloced, Region(ptr, AlignCeil(size)))
                && totalFreeBytes == old(totalFreeBytes) - AlignCeil(size)
    {
      var alignedSize := AlignCeil(size);
      AlignCeilSound(size);
      AlignCeilSound(alignedSize);
      ptr := Alloc(alignedSize);
      if ptr != 0 {
        return ptr, size;
      }
      if regions == [] {
        return 0, 0;
      }
      var best: nat := 0;
      for i := 1 to |regions|
        invariant best < |regions|
        invariant forall j :: 0 <= j < i ==> regions[j].size <= regions[best].size
      {
        if regions[best].size < regions[i].size {
          best := i;
        }
      }
      var it := regions[best];
      AlignedBelow(it.size, size);
      ptr, got := it.addr, it.size;
      TakeFrom(best, got);
    }

    /** `Free`; the null pointer is allowed, any other must be an allocated block. */
    method Free(ptr: nat)
      requires Valid() && (ptr == 0 || ptr in alloced)
      modifies this`regions, this`alloced, this`totalFreeBytes
      ensures Valid()
      ensures ptr == 0 ==> regions == old(regions) && alloced == old(alloced) && totalFreeBytes == old(totalFreeBytes)
      ensures ptr != 0 ==>
                && Released(old(regions), old(alloced), regions, alloced, ptr)
                && totalFreeBytes == old(totalFreeBytes) + old(alloced)[ptr]
    {
      if ptr == 0 {
        return;
      }
      var size := alloced[ptr];
      BlockApart(initial, regions, alloced, ptr);
      ghost var rs := regions;
      AddRegion(ptr, size);
      ReleasedSound(initial, rs, alloced, regions, ptr);
      alloced := alloced - {ptr};
      totalFreeBytes := totalFreeBytes + size;
    }

    /** Allocating a block and freeing it again restores the free list exactly. */
    method AllocThenFree(size: nat) returns (ret: nat)
      requires Valid() && size > 0
      modifies this`regions, this`alloced, this`totalFreeBytes
      ensures Valid()
      ensures regions == old(regions) && alloced == old(alloced) && totalFreeBytes == old(totalFreeBytes)
    {
      ghost var rs, blocks := regions, alloced;
      ret := Alloc(size);
      ghost var rs', blocks' := regions, alloced;
      Free(ret);
      if ret != 0 {
        TakeReleaseUndone(rs, blocks, rs', blocks', regions, alloced, Region(ret, AlignCeil(size)));
      }
    }

    /** Freeing every block, in whatever order, restores the initial free list. */
    method FreeAll(order: seq<nat>)
      requires Valid()
      requires forall a :: a in order <==> a in alloced
      requires forall i, j :: 0 <= i < j < |order| ==> order[i] != order[j]
      modifies this`regions, this`alloced, this`totalFreeBytes
      ensures Valid() && regions == initial && alloced == map[] && totalFreeBytes == SumSize(initial)
    {
      for n := 0 to |order|
        invariant Valid()
        invariant forall a :: a in alloced <==> a in order[n..]
      {
        assert Usable(Region(order[n], alloced[order[n]]));
        Free(order[n]);
      }
      assert alloced == map[];
      NothingAllocated(initial, regions);
    }
  }

  lemma LowerBoundIs(rs: seq<Region>, addr: nat, i: nat)
    requires i <= |rs| && forall j :: 0 <= j < i ==> rs[j].addr < addr
    requires i < |rs| ==> addr <= rs[i].addr && forall j :: i <= j < |rs| ==> rs[i].addr <= rs[j].addr
    ensures LowerBound(rs, addr) == i
  {
  }

  lemma InsertBetween(a: seq<Region>, r: Region, b: seq<Region>)
    requires Canonical(a + [r] + b)
    ensures InsertSorted(a + b, r) == a + [r] + b
  {
    var rs, ab := a + [r] + b, a + b;
    forall j | 0 <= j < |a| ensures ab[j].addr < r.addr {
      assert ab[j] == rs[j] && r == rs[|a|];
    }
    forall j | |a| <= j < |ab| ensures r.addr <= ab[|a|].addr <= ab[j].addr {
      assert ab[j] == rs[j + 1] && ab[|a|] == rs[|a| + 1] && r == rs[|a|];
    }
    LowerBoundIs(ab, r.addr, |a|);
  }

  lemma PageIsNew(pages: seq<Region>, n: nat, rs: seq<Region>)
    requires n < |pages| && Canonical(rs) && pages[n].size > 0
    requires forall i, j :: 0 <= i < j < |pages| ==> pages[i].End() <= pages[j].addr || pages[j].End() <= pages[i].addr
    requires forall x: nat :: Covers(rs, x) <==> Covers(pages[..n], x)
    ensures Apart(rs, pages[n])
  {
    forall x: nat | Contains(pages[n], x) ensures !Covers(rs, x) {
      if Covers(pages[..n], x) {
        var i := CoversFind(pages[..n], x);
        assert false;
      }
    }
    ApartFromCovers(rs, pages[n]);
  }

  // ----- who owns which address -----

  ghost predicate InBlock(alloced: map<nat, nat>, x: nat) {
    exists a :: a in alloced && Contains(Region(a, alloced[a]), x)
  }

  /** Allocated blocks are page-aligned and disjoint. */
  ghost predicate BlocksOk(alloced: map<nat, nat>) {
    && (forall a :: a in alloced ==> Usable(Region(a, alloced[a])))
    && (forall a, b :: a in alloced && b in alloced && a < b ==> a + alloced[a] <= b)
  }

  /** Every address of the pool is either free or in an allocated block, and not both. */
  ghost predicate Partition(initial: seq<Region>, regions: seq<Region>, alloced: map<nat, nat>) {
    forall x: nat ::
      && (Covers(initial, x) <==> Covers(regions, x) || InBlock(alloced, x))
      && !(Covers(regions, x) && InBlock(alloced, x))
  }

  /** The block `r` was taken out of the free regions `rs`. */
  ghost predicate Taken(rs: seq<Region>, blocks: map<nat, nat>, rs': seq<Region>, blocks': map<nat, nat>, r: Region) {
    && r.addr !in blocks && blocks' == blocks[r.addr := r.size]
    && (forall x: nat :: Contains(r, x) ==> Covers(rs, x))
    && (forall x: nat :: Covers(rs', x) <==> Covers(rs, x) && !Contains(r, x))
  }

  /** The block at `a` was given back. */
  ghost predicate Released(rs: seq<Region>, blocks: map<nat, nat>, rs': seq<Region>, blocks': map<nat, nat>, a: nat) {
    && a in blocks && blocks' == blocks - {a}
    && (forall x: nat :: Covers(rs', x) <==> Covers(rs, x) || Contains(Region(a, blocks[a]), x))
  }

  /** The block starts the first region that is large enough. */
  ghost predicate FirstFit(rs: seq<Region>, addr: nat, size: nat) {
    exists i :: 0 <= i < |rs| && rs[i].addr == addr && rs[i].size >= size && forall j :: 0 <= j < i ==> rs[j].size < size
  }

  lemma AlignCeilSound(v: nat)
    ensures Aligned(AlignCeil(v)) && v <= AlignCeil(v) < v + PAGE
    ensures Aligned(v) ==> AlignCeil(v) == v
  {
    var q := Quot(v + PAGE - 1, PAGE);
    QuotIsDiv(v + PAGE - 1, PAGE);
    TimesIsProduct(q, PAGE);
    QuotTimes(v + PAGE - 1, PAGE);
    QuotUnique(Times(q, PAGE), PAGE, q);
    QuotTimes(Times(q, PAGE), PAGE);
    if Aligned(v) {
      QuotTimes(v, PAGE);
      QuotUnique(v + PAGE - 1, PAGE, Quot(v, PAGE));
    }
  }

  /** A page-aligned size below the rounded-up request is at most the request. */
  lemma AlignedBelow(s: nat, size: nat)
    requires Aligned(s) && s < AlignCeil(size)
    ensures s < size
  {
    AlignCeilSound(size);
    QuotTimes(s, PAGE);
    QuotTimes(AlignCeil(size), PAGE);
    if Quot(s, PAGE) < Quot(AlignCeil(size), PAGE) {
      TimesOrder(Quot(s, PAGE), Quot(AlignCeil(size), PAGE), PAGE);
    } else if Quot(AlignCeil(size), PAGE) < Quot(s, PAGE) {
      TimesOrder(Quot(AlignCeil(size), PAGE), Quot(s, PAGE), PAGE);
    }
  }

  lemma AlignedDifference(x: nat, y: nat)
    requires Aligned(x) && Aligned(y) && y <= x
    ensures Aligned(x - y)
  {
    QuotTimes(x, PAGE);
    QuotTimes(y, PAGE);
    if Quot(x, PAGE) < Quot(y, PAGE) {
      TimesOrder(Quot(x, PAGE), Quot(y, PAGE), PAGE);
    }
    var d := Quot(x, PAGE) - Quot(y, PAGE);
    TimesSum(d, Quot(y, PAGE), PAGE);
    QuotUnique(x - y, PAGE, d);
    QuotTimes(x - y, PAGE);
  }

  /** The free regions after taking `size` bytes from the front of one of them. */
  lemma CarveSound(a: seq<Region>, whole: Region, b: seq<Region>, size: nat) returns (rs': seq<Region>)
    requires Canonical(a + [whole] + b) && 0 < size <= whole.size && Aligned(size)
    ensures rs' == if size < whole.size then InsertSorted(a + b, Region(whole.addr + size, whole.size - size)) else a + b
    ensures Usable(Region(whole.addr, size))
    ensures Canonical(rs') && SumSize(rs') == SumSize(a + [whole] + b) - size
    ensures forall x: nat :: Contains(Region(whole.addr, size), x) ==> Covers(a + [whole] + b, x)
    ensures forall x: nat :: Covers(rs', x) <==> Covers(a + [whole] + b, x) && !Contains(Region(whole.addr, size), x)
  {
    CarveParts(a, whole, b);
    if size < whole.size {
      rs' := CarveRest(a, whole, b, size);
    } else {
      rs' := a + b;
      CarveWhole(a, whole, b);
    }
  }

  /** The parts of a canonical list around one of its regions. */
  lemma CarveParts(a: seq<Region>, whole: Region, b: seq<Region>)
    requires Canonical(a + [whole] + b)
    ensures Canonical(a) && Canonical(b) && Canonical(a + b) && Usable(whole)
    ensures a != [] ==> a[|a| - 1].End() < whole.addr
    ensures b != [] ==> whole.End() < b[0].addr
  {
    var rs := a + [whole] + b;
    assert rs[..|a|] == a && rs[|a|] == whole && rs[|a| + 1..] == b;
    SliceCanonical(rs, 0, |a|);
    SliceCanonical(rs, |a| + 1, |rs|);
    EraseCanonical(rs, |a|);
    assert a != [] ==> rs[|a| - 1] == a[|a| - 1];
    assert b != [] ==> rs[|a| + 1] == b[0];
  }

  lemma EraseCanonical(rs: seq<Region>, i: nat)
    requires Canonical(rs) && i < |rs|
    ensures Canonical(rs[..i] + rs[i + 1..])
  {
    var r := rs[..i] + rs[i + 1..];
    assert forall j :: 0 <= j < |r| ==> r[j] == rs[if j < i then j else j + 1];
  }

  lemma CarveWhole(a: seq<Region>, whole: Region, b: seq<Region>)
    requires Canonical(a + [whole] + b)
    ensures SumSize(a + b) == SumSize(a + [whole] + b) - whole.size
    ensures forall x: nat :: Contains(whole, x) ==> Covers(a + [whole] + b, x)
    ensures forall x: nat :: Covers(a + b, x) <==> Covers(a + [whole] + b, x) && !Contains(whole, x)
  {
    Append(a, b);
    Join(a, whole, b);
    forall x: nat
      ensures Contains(whole, x) ==> Covers(a + [whole] + b, x)
      ensures Covers(a + b, x) <==> Covers(a + [whole] + b, x) && !Contains(whole, x)
    {
      OthersApart(a, whole, b, x);
    }
  }

  lemma CarveRest(a: seq<Region>, whole: Region, b: seq<Region>, size: nat) returns (rs': seq<Region>)
    requires Canonical(a + [whole] + b) && 0 < size < whole.size && Aligned(size)
    requires Canonical(a) && Canonical(b) && Usable(whole)
    requires a != [] ==> a[|a| - 1].End() < whole.addr
    requires b != [] ==> whole.End() < b[0].addr
    ensures Canonical(rs')
    ensures rs' == InsertSorted(a + b, Region(whole.addr + size, whole.size - size))
    ensures SumSize(rs') == SumSize(a + [whole] + b) - size
    ensures forall x: nat :: Contains(Region(whole.addr, size), x) ==> Covers(a + [whole] + b, x)
    ensures forall x: nat :: Covers(rs', x) <==> Covers(a + [whole] + b, x) && !Contains(Region(whole.addr, size), x)
  {
    var rest := Region(whole.addr + size, whole.size - size);
    AlignedSum(whole.addr, size);
    AlignedDifference(whole.size, size);
    JoinCanonical(a, rest, b);
    Join(a, whole, b);
    Join(a, rest, b);
    InsertBetween(a, rest, b);
    rs' := a + [rest] + b;
    forall x: nat
      ensures Contains(Region(whole.addr, size), x) ==> Covers(a + [whole] + b, x)
      ensures Covers(rs', x) <==> Covers(a + [whole] + b, x) && !Contains(Region(whole.addr, size), x)
    {
      OthersApart(a, whole, b, x);
    }
  }

  lemma OthersApart(a: seq<Region>, whole: Region, b: seq<Region>, x: nat)
    requires Canonical(a + [whole] + b)
    ensures Covers(a, x) || Covers(b, x) ==> !Contains(whole, x)
  {
    var rs := a + [whole] + b;
    assert rs[|a|] == whole;
    if Covers(a, x) {
      var j := CoversFind(a, x);
      assert rs[j] == a[j];
    } else if Covers(b, x) {
      var j := CoversFind(b, x);
      assert rs[|a| + 1 + j] == b[j];
    }
  }

  lemma TakenSound(initial: seq<Region>, rs: seq<Region>, blocks: map<nat, nat>, rs': seq<Region>, r: Region)
    requires Partition(initial, rs, blocks) && BlocksOk(blocks) && Usable(r)
    requires forall x: nat :: Contains(r, x) ==> Covers(rs, x)
    requires forall x: nat :: Covers(rs', x) <==> Covers(rs, x) && !Contains(r, x)
    ensures Taken(rs, blocks, rs', blocks[r.addr := r.size], r)
    ensures BlocksOk(blocks[r.addr := r.size]) && Partition(initial, rs', blocks[r.addr := r.size])
  {
    var blocks' := blocks[r.addr := r.size];
    forall a | a in blocks ensures a + blocks[a] <= r.addr || r.End() <= a {
      var x := if r.addr < a then a else r.addr;
      assert Contains(Region(a, blocks[a]), x) ==> InBlock(blocks, x);
      assert Contains(r, x) ==> Covers(rs, x);
    }
    forall x: nat ensures InBlock(blocks', x) <==> InBlock(blocks, x) || Contains(r, x) {
      if InBlock(blocks, x) {
        var a :| a in blocks && Contains(Region(a, blocks[a]), x);
        assert a in blocks' && Contains(Region(a, blocks'[a]), x);
      }
      if Contains(r, x) {
        assert r.addr in blocks' && Contains(Region(r.addr, blocks'[r.addr]), x);
      }
    }
  }

  lemma BlockApart(initial: seq<Region>, rs: seq<Region>, blocks: map<nat, nat>, a: nat)
    requires Canonical(rs) && Partition(initial, rs, blocks) && BlocksOk(blocks) && a in blocks
    ensures Usable(Region(a, blocks[a])) && Apart(rs, Region(a, blocks[a]))
  {
    forall x: nat | Contains(Region(a, blocks[a]), x) ensures !Covers(rs, x) {
      assert InBlock(blocks, x);
    }
    ApartFromCovers(rs, Region(a, blocks[a]));
  }

  lemma ReleasedSound(initial: seq<Region>, rs: seq<Region>, blocks: map<nat, nat>, rs': seq<Region>, a: nat)
    requires Partition(initial, rs, blocks) && BlocksOk(blocks) && a in blocks
    requires forall x: nat :: Covers(rs', x) <==> Covers(rs, x) || Contains(Region(a, blocks[a]), x)
    ensures BlocksOk(blocks - {a}) && Partition(initial, rs', blocks - {a})
  {
    var blocks', r := blocks - {a}, Region(a, blocks[a]);
    forall x: nat
      ensures InBlock(blocks, x) <==> InBlock(blocks', x) || Contains(r, x)
      ensures !(InBlock(blocks', x) && Contains(r, x))
    {
      if InBlock(blocks', x) {
        var b :| b in blocks' && Contains(Region(b, blocks'[b]), x);
        assert b in blocks && Contains(Region(b, blocks[b]), x);
      }
      if InBlock(blocks, x) && !Contains(r, x) {
        var b :| b in blocks && Contains(Region(b, blocks[b]), x);
        assert b in blocks' && Contains(Region(b, blocks'[b]), x);
      }
    }
  }

  /** Taking a block and releasing it is the identity, because the free list is canonical. */
  lemma TakeReleaseUndone(rs: seq<Region>, blocks: map<nat, nat>, rs': seq<Region>, blocks': map<nat, nat>,
                          rs'': seq<Region>, blocks'': map<nat, nat>, r: Region)
    requires Canonical(rs) && Canonical(rs'')
    requires Taken(rs, blocks, rs', blocks', r) && Released(rs', blocks', rs'', blocks'', r.addr)
    ensures rs'' == rs && blocks'' == blocks
  {
    CanonicalUnique(rs'', rs);
  }

  /** With nothing allocated the free list is the initial one. */
  lemma NothingAllocated(initial: seq<Region>, rs: seq<Region>)
    requires Canonical(initial) && Canonical(rs) && Partition(initial, rs, map[])
    ensures rs == initial
  {
    CanonicalUnique(rs, initial);
  }
}

/** sys_mmap and sys_munmap (src/syscall.rs): a bump pointer over a coalescing, best-fit free list. */
module Mmap {
  import opened Wrappers
  import opened MmapRegions

  const MMAP_BASE: u64 := 0x1A00_0000
  const MMAP_LIMIT: u64 := 0xA000_0000
  const ENOMEM: int := -12
  const EINVAL: int := -22

  /** (x + 0xFFF) & !0xFFF in 64-bit arithmetic: the least multiple of a page that holds x bytes, or
      0 when the sum wraps. */
  function PageUp(x: u64): (r: u64)
    ensures r % PAGE == 0
    ensures if x + 0xFFF < U64 then x <= r < x + PAGE else r == 0
  {
    Plus(x, 0xFFF) / PAGE * PAGE
  }

  function PageDown(x: u64): (r: u64)
    ensures r % PAGE == 0 && r <= x < r + PAGE
  {
    x / PAGE * PAGE
  }

  /** The page range an munmap call names. */
  function Named(addr: u64, length: u64): Region {
    Region(PageDown(addr), PageUp(Plus(length, addr - PageDown(addr))))
  }

  /** The guard of sys_munmap; the sum wraps. */
  predicate Managed(r: Region) {
    r.addr >= MMAP_BASE && r.Top() <= MMAP_LIMIT
  }

  /** The n addresses from a on. */
  ghost function Span(a: nat, n: nat): set<nat> {
    set x: nat | x < a + n && Within(x, a, n)
  }

  predicate Within(x: nat, a: nat, n: nat) {
    a <= x < a + n
  }

  /** Is x on a page that holds a byte of the n from a on? */
  predicate OnPagesOf(x: nat, a: nat, n: nat) {
    n > 0 && a / PAGE <= x / PAGE <= (a + n - 1) / PAGE
  }

  /** The range an munmap names is exactly the pages that hold a byte of what the caller asked for. */
  lemma NamedPages(addr: u64, length: u64, x: nat)
    requires length > 0 && addr + length + 0xFFF < U64
    ensures In(x, Named(addr, length)) <==> OnPagesOf(x, addr, length)
  {
    var r := Named(addr, length);
    var first, last := addr / PAGE, (addr + length - 1) / PAGE;
    assert r.addr == first * PAGE;
    LastPage(addr, length);
    assert r.End() == (last + 1) * PAGE;
  }

  lemma LastPage(addr: u64, length: u64)
    requires length > 0 && addr + length + 0xFFF < U64
    ensures Named(addr, length).End() == ((addr + length - 1) / PAGE + 1) * PAGE
  {
    var off := addr - PageDown(addr);
    var up := PageUp(length + off);
    AlignedSum(PageDown(addr), up);
    assert addr + length <= PageDown(addr) + up < addr + length + PAGE;
  }

  predicate AllWithin(free: seq<Region>, lo: nat, hi: nat) {
    forall i :: 0 <= i < |free| ==> lo <= free[i].addr && free[i].End() <= hi
  }

  ghost function Addresses(r: Region): set<nat> {
    set x: nat | x < r.End() && In(x, r)
  }

  /** The addresses from MMAP_BASE to the bump pointer are split exactly into live and free. */
  ghost predicate Split(free: seq<Region>, next: nat, live: set<nat>) {
    && Tidy(free) && AllWithin(free, MMAP_BASE, next)
    && MMAP_BASE <= next <= MMAP_LIMIT && next % PAGE == 0
    && forall x: nat :: x in live <==> MMAP_BASE <= x < next && !Covers(free, x)
  }

  // ---- what each call does to the split ----

  lemma CoversWithin(free: seq<Region>, lo: nat, hi: nat, x: nat)
    requires AllWithin(free, lo, hi) && Covers(free, x)
    ensures lo <= x < hi
  {
  }

  lemma WithinCovers(free: seq<Region>, lo: nat, hi: nat)
    requires NonEmpty(free) && forall x: nat :: Covers(free, x) ==> lo <= x < hi
    ensures AllWithin(free, lo, hi)
  {
    forall i | 0 <= i < |free| ensures lo <= free[i].addr && free[i].End() <= hi {
      assert In(free[i].addr, free[i]) && In(free[i].End() - 1, free[i]);
      assert Covers(free, free[i].addr) && Covers(free, free[i].End() - 1);
    }
  }

  lemma LiveApart(free: seq<Region>, next: nat, live: set<nat>, r: Region)
    requires Split(free, next, live) && r.len > 0
    ensures Addresses(r) <= live <==> MMAP_BASE <= r.addr && r.End() <= next && ApartFromAll(free, r)
  {
    if Addresses(r) <= live {
      assert In(r.addr, r) && In(r.End() - 1, r);
      assert r.addr in Addresses(r) && r.End() - 1 in Addresses(r);
      forall i | 0 <= i < |free| ensures Apart(free[i], r) {
        if !Apart(free[i], r) {
          var x := if free[i].addr < r.addr then r.addr else free[i].addr;
          assert In(x, r) && In(x, free[i]);
          assert x in Addresses(r);
          assert Covers(free, x);
          assert false;
        }
      }
    }
    if MMAP_BASE <= r.addr && r.End() <= next && ApartFromAll(free, r) {
      forall x | x in Addresses(r) ensures x in live {
        assert forall i :: 0 <= i < |free| && Apart(free[i], r) ==> !In(x, free[i]);
      }
    }
  }

  lemma SplitBelow(free: seq<Region>, next: nat, live: set<nat>)
    requires Split(free, next, live)
    ensures Below(free) && NonEmpty(free)
  {
  }

  /** A release of non-empty whole pages keeps the split exactly when the pages were live. */
  lemma ReleaseLive(free: seq<Region>, next: nat, live: set<nat>, r: Region)
    requires Split(free, next, live) && PageRange(r) && r.End() < U64
    ensures Split(Add(free, r), next, live - Addresses(r)) <==> Addresses(r) <= live
  {
    LiveApart(free, next, live, r);
    AddDisjointIff(free, r);
    forall x: nat ensures Covers(Add(free, r), x) <==> Covers(free, x) || In(x, r) { AddIsUnion(free, r, x); }
    if Addresses(r) <= live {
      AddKeepsTidy(free, r);
      forall x: nat | Covers(Add(free, r), x) ensures MMAP_BASE <= x < next {
        if Covers(free, x) { CoversWithin(free, MMAP_BASE, next, x); }
      }
      WithinCovers(Add(free, r), MMAP_BASE, next);
    } else if Split(Add(free, r), next, live - Addresses(r)) {
      assert In(r.addr, r) && In(r.End() - 1, r);
      CoversWithin(Add(free, r), MMAP_BASE, next, r.addr);
      assert false;
    }
  }

  /** A release whose end wraps never keeps the split. */
  lemma ReleaseWrapped(free: seq<Region>, next: nat, live: set<nat>, r: Region)
    requires Split(free, next, live) && PageRange(r) && r.End() >= U64
    ensures !Split(Add(free, r), next, live - Addresses(r))
  {
    WrappedAdd(free, r);
    if x: nat :| Covers(free, x) && !Covers(Add(free, r), x) {
      CoversWithin(free, MMAP_BASE, next, x);
    }
  }

  /** What a caller must see before an munmap: the end does not wrap and the pages are live; a
      length that rounds to 0 must border a free entry. */
  ghost predicate Releasable(free: seq<Region>, live: set<nat>, r: Region) {
    if r.len == 0 then exists i :: 0 <= i < |free| && Touches(free[i], r)
    else r.End() < U64 && Addresses(r) <= live
  }

  /** Releasing a range moves it from live to free.  For every range the call can act on, the split
      survives exactly when the range was releasable. */
  lemma ReleaseIff(free: seq<Region>, next: nat, live: set<nat>, r: Region)
    requires Split(free, next, live) && r.addr % PAGE == 0 && r.len % PAGE == 0
    ensures Split(Add(free, r), next, live - Addresses(r)) <==> Releasable(free, live, r)
  {
    SplitBelow(free, next, live);
    if r.len == 0 {
      EmptyAdd(free, r);
      assert live - Addresses(r) == live;
    } else if r.End() < U64 {
      ReleaseLive(free, next, live, r);
    } else {
      ReleaseWrapped(free, next, live, r);
    }
  }

  /** A concrete failure: the end of this range wraps to 0 and passes the guard, the range up to 2^64
      becomes free, and a request longer than the managed range is served past MMAP_LIMIT. */
  lemma ReleasedPastTheEnd()
    ensures var r := Named(MMAP_BASE, 0xFFFF_FFFF_E600_0000);
      && r == Region(MMAP_BASE, U64 - MMAP_BASE) && Managed(r) && Add([], r) == [r]
      && BestFit([r], MMAP_LIMIT, 0) && MMAP_BASE + MMAP_LIMIT > MMAP_LIMIT
  {
  }

  /** A concrete failure: this length rounds to 0, and the call leaves an empty free entry. */
  lemma ReleasedNothing()
    ensures var r := Named(MMAP_BASE, 0xFFFF_FFFF_FFFF_FFFF);
      r == Region(MMAP_BASE, 0) && Managed(r) && Add([], r) == [r]
  {
  }

  /** A concrete failure: releasing the same page twice leaves it in the list twice, so it can be
      handed out twice. */
  lemma ReleasedTwice()
    ensures var r := Region(MMAP_BASE, PAGE);
      Add(Add([], r), r) == [r, r] && !Disjoint([r, r]) && BestFit([r, r], PAGE, 0) && TakeAt([r, r], 0, PAGE) == [r]
  {
    var r := Region(MMAP_BASE, PAGE);
    assert Add([], r) == [r];
    assert FirstMeet([r], r, None, 0) == None;
    assert !Apart([r, r][0], [r, r][1]);
  }

  /** A block of whole pages holds the bytes asked for and less than a page more. */
  lemma EnoughPages(a: u64, length: u64)
    requires length + 0xFFF < U64
    ensures Span(a, length) <= Addresses(Region(a, PageUp(length))) <= Span(a, length + 0xFFF)
  {
    var r := Region(a, PageUp(length));
    forall x | x in Span(a, length) ensures x in Addresses(r) { assert In(x, r); }
    forall x | x in Addresses(r) ensures x in Span(a, length + 0xFFF) { assert Within(x, a, length + 0xFFF); }
  }

  /** Taking a free block moves it from free to live; it was not live before. */
  lemma TakeSplits(free: seq<Region>, next: nat, live: set<nat>, i: nat, len: u64)
    requires Split(free, next, live) && i < |free| && len <= free[i].len && len % PAGE == 0
    ensures Split(TakeAt(free, i, len), next, live + Addresses(Region(free[i].addr, len)))
    ensures Addresses(Region(free[i].addr, len)) !! live
    ensures MMAP_BASE <= free[i].addr && free[i].addr + len <= MMAP_LIMIT
  {
    var r, f := Region(free[i].addr, len), TakeAt(free, i, len);
    TakeKeepsTidy(free, i, len);
    forall x: nat ensures Covers(f, x) <==> Covers(free, x) && !In(x, r) { TakeIsDifference(free, i, len, x); }
    forall x: nat | In(x, r) ensures Covers(free, x) && MMAP_BASE <= x < next {
      assert In(x, free[i]);
    }
    forall x: nat | Covers(f, x) ensures MMAP_BASE <= x < next { CoversWithin(free, MMAP_BASE, next, x); }
    WithinCovers(f, MMAP_BASE, next);
  }

  /** Bumping hands out addresses never used before. */
  lemma BumpSplits(free: seq<Region>, next: nat, live: set<nat>, len: u64)
    requires Split(free, next, live) && next + len <= MMAP_LIMIT && len % PAGE == 0
    ensures Split(free, next + len, live + Addresses(Region(next, len)))
    ensures Addresses(Region(next, len)) !! live
  {
    forall x: nat | Covers(free, x) ensures x < next { CoversWithin(free, MMAP_BASE, next, x); }
    AlignedSum(next, len);
    var r := Region(next, len);
    forall x: nat ensures x in live + Addresses(r) <==> MMAP_BASE <= x < next + len && !Covers(free, x) {
      assert x in Addresses(r) <==> In(x, r);
    }
  }

  ghost function Claimed(r: Region): set<nat> {
    set x: nat | x < r.End() && In(x, r) && x >= MMAP_BASE
  }

  /** What a caller must see before a fixed mapping: it ends at or below the bump pointer, and it is
      made of whole pages or no free entry straddles one of its ends. */
  predicate Claimable(free: seq<Region>, next: nat, r: Region) {
    && (r.len == 0 || r.End() <= next || r.End() <= MMAP_BASE)
    && (PageRange(r) || (NoneSplits(free, r.addr) && NoneSplits(free, r.End())))
  }

  /** A fixed mapping claims its range, at whatever address; the split survives exactly when the
      range was claimable. */
  lemma FixedIff(free: seq<Region>, next: nat, live: set<nat>, r: Region)
    requires Split(free, next, live) && r.len % PAGE == 0 && r.End() < U64
    ensures Split(Drop(free, r.addr, r.End()), next, live + Claimed(r)) <==> Claimable(free, next, r)
  {
    SplitBelow(free, next, live);
    var f := Drop(free, r.addr, r.End());
    DropTidyExactly(free, r.addr, r.End());
    forall x: nat ensures Covers(f, x) <==> Covers(free, x) && !In(x, r) { DropIsDifference(free, r.addr, r.End(), x); }
    forall x: nat | Covers(f, x) ensures MMAP_BASE <= x < next { CoversWithin(free, MMAP_BASE, next, x); }
    if Tidy(f) { WithinCovers(f, MMAP_BASE, next); }
    if r.len > 0 && r.End() > next && r.End() > MMAP_BASE {
      assert In(r.End() - 1, r);
      assert r.End() - 1 in Claimed(r);
    }
  }

  /** An address as the syscall's i64 result. */
  function Signed(a: u64): int {
    if a < 0x8000_0000_0000_0000 then a else a - U64
  }

  class Allocator {
    var free: seq<Region>
    var next: u64
    ghost var live: set<nat>

    ghost predicate Valid()
      reads this
    {
      Split(free, next, live)
    }

    /** What no sequence of calls can break: the bump pointer stays in the managed range. */
    ghost predicate Bounded()
      reads this
    {
      MMAP_BASE <= next <= MMAP_LIMIT && next % PAGE == 0
    }

    constructor ()
      ensures Valid() && Bounded() && free == [] && next == 0x1A00_0000 && live == {}
    {
      free, next, live := [], MMAP_BASE, {};
    }

    /** free_regions_add: extend the first bordering entry, then merge it with one more. */
    method FreeAdd(r: Region)
      modifies this`free
      ensures free == Add(old(free), r)
    {
      var i := 0;
      while i < |free| && !Meets(free[i], r)
        invariant i <= |free| && FirstMeet(free, r, None, 0) == FirstMeet(free, r, None, i)
      {
        i := i + 1;
      }
      if i == |free| {
        free := free + [r];
        return;
      }
      free := free[i := Join(free[i], r)];
      var j := 0;
      while j < |free| && (j == i || !Meets(free[j], free[i]))
        invariant j <= |free| && FirstMeet(free, free[i], Some(i), 0) == FirstMeet(free, free[i], Some(i), j)
      {
        j := j + 1;
      }
      if j < |free| {
        var hull := Hull(free[j], free[i]);
        free := free[..j] + free[j + 1..];
        var at := if j < i then i - 1 else i;
        free := free[at := hull];
      }
    }

    /** free_regions_take: the first of the smallest entries that fit, cut from the front. */
    method FreeTake(len: u64) returns (r: Option<u64>)
      modifies this`free
      ensures r == None ==> free == old(free) && NoneFits(free, len)
      ensures r.Some? ==> exists i: nat :: BestFit(old(free), len, i) && r.value == old(free)[i].addr && free == TakeAt(old(free), i, len)
    {
      var best: Option<nat> := None;
      var bestExcess := U64 - 1;
      var i := 0;
      while i < |free| && !(best.Some? && bestExcess == 0)
        invariant i <= |free|
        invariant best == None ==> bestExcess == U64 - 1 && forall j :: 0 <= j < i ==> !Fits(free[j], len)
        invariant best.Some? ==>
          && best.value < i && Fits(free[best.value], len) && bestExcess == free[best.value].len - len
          && (forall j :: 0 <= j < i && Fits(free[j], len) ==> free[best.value].len <= free[j].len)
          && (forall j :: 0 <= j < best.value && Fits(free[j], len) ==> free[best.value].len < free[j].len)
      {
        if free[i].len >= len && free[i].len - len < bestExcess {
          bestExcess := free[i].len - len;
          best := Some(i);
        }
        i := i + 1;
      }
      if best == None { return None; }
      var b := best.value;
      assert BestFit(free, len, b);
      var e := free[b];
      if e.len == len {
        free := free[b := free[|free| - 1]][..|free| - 1];
      } else {
        free := free[b := Region(Plus(e.addr, len), e.len - len)];
      }
      return Some(e.addr);
    }

    /** free_regions_drop_range: keep disjoint entries, then append what is left of the others. */
    method FreeDrop(lo: u64, len: u64)
      modifies this`free
      ensures free == Drop(old(free), lo, Plus(lo, len))
    {
      hide Kept, Pieces, Cut;
      var hi := Plus(lo, len);
      DropNone(free, lo, hi);
      var kept, toAdd: seq<Region> := [], [];
      for n := 0 to |free|
        invariant free == old(free) && kept == Kept(free, lo, hi, n) && toAdd == Pieces(free, lo, hi, n)
      {
        var e := free[n];
        DropOne(free, lo, hi, n);
        if e.Top() <= lo || e.addr >= hi {
          kept := kept + [e];
        } else {
          var cut := Trim(e, lo, hi);
          toAdd := toAdd + cut;
        }
      }
      free := kept + toAdd;
    }

    /** What is kept of an entry that meets the range. */
    method Trim(e: Region, lo: u64, hi: u64) returns (cut: seq<Region>)
      ensures cut == Cut(e, lo, hi)
    {
      cut := [];
      if e.addr < lo { cut := cut + [Region(e.addr, lo - e.addr)]; }
      if e.Top() > hi { cut := cut + [Region(hi, e.Top() - hi)]; }
    }

    /** sys_munmap: outside the managed range nothing happens; inside, the pages become free.  The
        split survives exactly when the range was releasable. */
    method Munmap(addr: u64, length: u64) returns (r: int)
      requires Bounded()
      modifies this
      ensures Bounded() && next == old(next)
      ensures r == if addr == 0 || length == 0 then EINVAL else 0
      ensures var r := Named(addr, length);
        var acts := addr != 0 && length != 0 && r.addr >= 0x1A00_0000 && r.Top() <= 0xA000_0000;
        && free == (if acts then Add(old(free), Named(addr, length)) else old(free))
        && live == (if acts then old(live) - Addresses(Named(addr, length)) else old(live))
        && (old(Valid()) ==> (Valid() <==> (acts ==> Releasable(old(free), old(live), Named(addr, length)))))
        && (acts && addr + length + 0xFFF < U64 ==> forall x: nat :: x in live <==> x in old(live) && !OnPagesOf(x, addr, length))
    {
      hide Split, Releasable;
      if addr == 0 || length == 0 { return EINVAL; }
      var base := PageDown(addr);
      var len := PageUp(Plus(length, addr - base));
      if base >= MMAP_BASE && Plus(base, len) <= MMAP_LIMIT {
        FreeAdd(Region(base, len));
        live := live - Addresses(Region(base, len));
        if old(Valid()) { ReleaseIff(old(free), next, old(live), Region(base, len)); }
        if addr + length + 0xFFF < U64 {
          forall x: nat ensures x in live <==> x in old(live) && !OnPagesOf(x, addr, length) { NamedPages(addr, length, x); }
        }
      }
      return 0;
    }

    /** The first branch of sys_mmap: MAP_FIXED claims exactly the range asked for. */
    method MapFixed(addr: u64, length: u64) returns (r: int)
      requires addr > 0 && Bounded()
      modifies this
      ensures Bounded() && next == old(next)
      ensures var want := Region(addr, PageUp(length));
        if want.End() > 0xA000_0000 then r == ENOMEM && free == old(free) && live == old(live)
        else
          && r == addr && free == Drop(old(free), addr, want.End()) && live == old(live) + Claimed(want)
          && (old(Valid()) ==> (Valid() <==> Claimable(old(free), next, want)))
          && (length + 0xFFF < U64 ==> forall x :: addr <= x < addr + length && x >= MMAP_BASE ==> x in live)
    {
      hide Split, Claimable, Drop;
      var len := PageUp(length);
      if addr + len > MMAP_LIMIT { return ENOMEM; }
      FreeDrop(addr, len);
      live := live + Claimed(Region(addr, len));
      if old(Valid()) { FixedIff(old(free), next, old(live), Region(addr, len)); }
      return addr;
    }

    /** The rest of sys_mmap: the best-fitting free block, else fresh addresses, else ENOMEM.  While
        the split holds it stays, and what is handed out was not live and lies below MMAP_LIMIT. */
    method Map(length: u64) returns (r: Option<u64>)
      requires Bounded()
      modifies this
      ensures Bounded()
      ensures r == None <==> NoneFits(old(free), PageUp(length)) && old(next) + PageUp(length) > 0xA000_0000
      ensures r == None ==> free == old(free) && next == old(next) && live == old(live)
      ensures r.Some? ==> live == old(live) + Addresses(Region(r.value, PageUp(length)))
      ensures r.Some? && length + 0xFFF < U64 ==> Span(r.value, length) <= live <= old(live) + Span(r.value, length + 0xFFF)
      ensures r.Some? && NoneFits(old(free), PageUp(length)) ==> r.value == old(next) && next == old(next) + PageUp(length) && free == old(free)
      ensures !NoneFits(old(free), PageUp(length)) ==>
        next == old(next) && exists i: nat ::
          && i < |old(free)| && Fits(old(free)[i], PageUp(length)) && r == Some(old(free)[i].addr) && free == TakeAt(old(free), i, PageUp(length))
          && (forall j :: 0 <= j < |old(free)| && Fits(old(free)[j], PageUp(length)) ==> old(free)[i].len <= old(free)[j].len)
          && (forall j :: 0 <= j < i && Fits(old(free)[j], PageUp(length)) ==> old(free)[i].len < old(free)[j].len)
      ensures old(Valid()) ==>
        && Valid()
        && (r.Some? ==> 0x1A00_0000 <= r.value && r.value + PageUp(length) <= 0xA000_0000 && Addresses(Region(r.value, PageUp(length))) !! old(live))
    {
      hide Split, Addresses, Span, TakeAt, PageUp;
      var len := PageUp(length);
      var reused := FreeTake(len);
      if reused.Some? {
        ghost var i: nat :| BestFit(old(free), len, i) && reused.value == old(free)[i].addr && free == TakeAt(old(free), i, len);
        assert Fits(old(free)[i], len);
        if old(Valid()) { TakeSplits(old(free), next, live, i, len); }
        live := live + Addresses(Region(reused.value, len));
        if length + 0xFFF < U64 { EnoughPages(reused.value, length); }
        return reused;
      }
      var cur := next;
      if cur + len > MMAP_LIMIT { return None; }
      if Valid() { BumpSplits(free, cur, live, len); }
      AlignedSum(cur, len);
      next := cur + len;
      live := live + Addresses(Region(cur, len));
      if length + 0xFFF < U64 { EnoughPages(cur, length); }
      return Some(cur);
    }

    /** sys_mmap: MAP_FIXED is honoured for a non-zero address, otherwise the address is a hint. */
    method SysMmap(addr: u64, length: u64, fixed: bool) returns (r: int)
      requires Bounded()
      modifies this
      ensures Bounded()
      ensures addr != 0 && fixed ==> r == if addr + PageUp(length) > 0xA000_0000 then ENOMEM else addr
      ensures old(Valid()) && r != ENOMEM ==> 0 <= r && r + PageUp(length) <= 0xA000_0000
      ensures old(Valid()) && (addr == 0 || !fixed) ==> Valid() && (r != ENOMEM ==> Span(r, length) !! old(live) || length + 0xFFF >= U64)
      ensures old(Valid()) && r != ENOMEM && length + 0xFFF < U64 ==> forall x :: r <= x < r + length && x >= MMAP_BASE ==> x in live
      ensures old(Valid()) && addr != 0 && fixed ==>
        (Valid() <==> addr + PageUp(length) > MMAP_LIMIT || Claimable(old(free), old(next), Region(addr, PageUp(length))))
    {
      if addr != 0 && fixed {
        r := MapFixed(addr, length);
      } else {
        var at := Map(length);
        r := if at == None then ENOMEM else Signed(at.value);
      }
    }
  }
}

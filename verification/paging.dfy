/** The paging layer (src/memory/paging.rs): splitting, attributes, scratch and guard pages, and the
    software walk that vets user pointers. */
module Paging {
  import opened Wrappers
  import opened PagingTables

  const U64: nat := 0x1_0000_0000_0000_0000
  const LOW_SCRATCH_FRAMES: nat := 16
  const MAX_THREADS: nat := 32
  const KSTACK_ARENA_BASE: nat := 0x0700_0000
  const KSTACK_ARENA_SIZE: nat := 16 * 1024 * 1024
  const KSTACK_STRIDE: nat := 24 * 1024
  const ARENA_FIRST: nat := 56   // KSTACK_ARENA_BASE / TWO_MIB
  const ARENA_LAST: nat := 64    // (KSTACK_ARENA_BASE + KSTACK_ARENA_SIZE) / TWO_MIB

  /** The regions attribute_regions gives to user code, and those it makes non-executable, as
      numbers of 2 MiB regions of GiB 0. */
  predicate UserRegion(i: nat) {
    2 <= i < 56 || i == 112 || 208 <= i < 512
  }

  predicate NxRegion(i: nat) {
    i == 112 || 121 <= i < 208
  }

  /** What every page looks like after init. */
  function BootView(p: Page): View {
    if p.g == 0 then Mapped(Number(p), UserRegion(p.i), NxRegion(p.i)) else Mapped(Number(p), p.g < 3, false)
  }

  function Attributed(v: View, us: bool, nx: bool): View {
    if v.Mapped? then Mapped(v.frame, us, nx) else Absent
  }

  function Painted(e: Entry, us: bool, nx: bool): Entry {
    if e.present then e.(user := us, nx := nx) else e
  }

  /** Does the processor let user code touch this byte? */
  predicate UserByte(t: Tables, x: nat)
    requires Shape(t) && Pointers(t)
  {
    x < 4 * GIB && Walk(t, PageAt(x)).Mapped? && Walk(t, PageAt(x)).user
  }

  /** What is allowed to differ from the boot view later: low pages remapped to scratch frames, and
      guard pages in the kernel-stack arena. */
  function RunView(p: Page, base: nat, low: map<nat, nat>, guards: set<nat>): View {
    if Number(p) in low && Number(p) < 512 then Mapped(base + low[Number(p)], true, false)
    else if Number(p) in guards then Absent
    else BootView(p)
  }

  predicate InArena(i: nat) {
    ARENA_FIRST <= i < ARENA_LAST
  }

  /** Low pages use scratch slots below `next`, each its own. */
  predicate Slots(low: map<nat, nat>, next: nat) {
    && (forall n :: n in low ==> n < 512 && low[n] < next && low[n] < LOW_SCRATCH_FRAMES)
    && (forall n, m :: n in low && m in low && n != m ==> low[n] != low[m])
  }

  lemma Remapped(p: Page, base: nat, low: map<nat, nat>, guards: set<nat>, n: nat, slot: nat)
    requires n < 512
    ensures RunView(p, base, low[n := slot], guards) ==
      if Number(p) == n then Mapped(base + slot, true, false) else RunView(p, base, low, guards)
  {
  }

  lemma SlotTaken(low: map<nat, nat>, next: nat, n: nat)
    requires Slots(low, next) && n < 512
    ensures Slots(low, next + 1) && (next < LOW_SCRATCH_FRAMES ==> Slots(low[n := next], next + 1))
  {
  }

  // ---- the memory map, by address ----

  /** User code: image and heap, user stack, JIT and mappings. */
  predicate UserAddress(x: nat) {
    0x0040_0000 <= x < 0x0700_0000 || 0x0E00_0000 <= x < 0x0E20_0000 || 0x1A00_0000 <= x < 0xC000_0000
  }

  /** No execution: user stack and kernel data. */
  predicate NxAddress(x: nat) {
    0x0E00_0000 <= x < 0x0E20_0000 || 0x0F20_0000 <= x < 0x1A00_0000
  }

  predicate ArenaAddress(x: nat) {
    KSTACK_ARENA_BASE <= x < KSTACK_ARENA_BASE + KSTACK_ARENA_SIZE
  }

  /** The page of an address has the number the address has in units of 4 KiB. */
  lemma PageNumber(x: nat)
    requires x < 4 * GIB
    ensures Real(PageAt(x)) && Number(PageAt(x)) == x / FOUR_KIB
  {
    var g, r := x / GIB, x % GIB;
    var i, o := r / TWO_MIB, r % TWO_MIB;
    assert x == g * GIB + i * TWO_MIB + o;
    assert x % TWO_MIB == o;
    assert x / FOUR_KIB == g * GIB_PAGES + i * 512 + o / FOUR_KIB;
  }

  /** The boot map maps every address to itself, with the access its address says. */
  lemma BootAddress(x: nat)
    requires x < 4 * GIB
    ensures BootView(PageAt(x)) == Mapped(x / FOUR_KIB, UserAddress(x), NxAddress(x))
  {
    PageNumber(x);
    if x < GIB { assert PageAt(x).i == x / TWO_MIB; }
  }

  class PageTables {
    const scratchBase: nat   // frame number of LOW_SCRATCH, in the kernel image above the low 2 MiB
    var scratchNext: nat
    ghost var low: map<nat, nat>    // low page -> scratch slot
    ghost var guards: set<nat>      // page numbers
    var nextTid: nat
    var kstackNext: nat
    var root: Entry
    var pdpt: seq<Entry>
    var pds: seq<seq<Entry>>
    var pts: seq<seq<Entry>>
    var splitNext: nat

    function Now(): Tables
      reads this
    {
      Tables(root, pdpt, pds, pts, splitNext)
    }

    ghost predicate Valid()
      reads this
    {
      Sound(Now())
    }

    ghost function ViewAt(p: Page): View
      requires Valid() && Real(p)
      reads this
    {
      Look(Now(), p)
    }

    /** Is region i about to be split by ensure_pt? */
    ghost predicate Splits(addr: nat)
      requires Valid()
      reads this
    {
      addr < GIB && pds[0][addr / TWO_MIB].huge && splitNext < MAX_SPLIT_PTS
    }

    /** Can ensure_pt produce a table for this address? */
    ghost predicate Reachable(addr: nat)
      requires Valid()
      reads this
    {
      addr < GIB && (!pds[0][addr / TWO_MIB].huge || splitNext < MAX_SPLIT_PTS)
    }

    /** What ensure_pt leaves of a page's view. */
    ghost function AfterSplit(addr: nat, p: Page): View
      requires Valid() && Real(p)
      reads this
    {
      if Splits(addr) && p.g == 0 && p.i == addr / TWO_MIB then Mapped(Number(p), false, false) else ViewAt(p)
    }

    /** ensure_pt: the page table of the 2 MiB region containing `addr`, splitting it on first use.
        Translations never change; a split clears the region's attributes. */
    method EnsurePt(addr: nat) returns (k: Option<nat>)
      requires Valid()
      modifies this`pds, this`pts, this`splitNext
      ensures Valid()
      ensures k.Some? <==> addr < GIB && (!old(pds[0][addr / TWO_MIB].huge) || old(splitNext) < 16)
      ensures k.Some? ==> !pds[0][addr / TWO_MIB].huge
      ensures k.Some? ==> k.value == pds[0][addr / TWO_MIB].at < MAX_SPLIT_PTS
      ensures k == None ==> pds == old(pds) && pts == old(pts)
      ensures splitNext == old(splitNext) + if addr < GIB && old(pds[0][addr / TWO_MIB].huge) then 1 else 0
      ensures forall i :: 0 <= i < 512 && !(old(Splits(addr)) && i == addr / TWO_MIB) ==> pds[0][i].huge == old(pds[0][i].huge)
      ensures forall p :: Real(p) ==> ViewAt(p) == old(AfterSplit(addr, p))
    {
      var g, i := addr / GIB, addr % GIB / TWO_MIB;
      if g >= 4 { return None; }
      if pds[g][i].huge {
        IsLow(Now(), g, i);
        var slot := splitNext;
        splitNext := splitNext + 1;
        if slot >= MAX_SPLIT_PTS {
          MoreSplits(old(Now()), splitNext);
          return None;
        }
        Fill(slot, i);
        pds := pds[g := pds[g][i := Entry(true, false, false, false, slot)]];
        forall p | Real(p) ensures Sound(Now()) && Look(Now(), p) ==
          if p.g == 0 && p.i == i then Mapped(Number(p), false, false) else Look(old(Now()), p)
        {
          SplitLook(old(Now()), i, p);
          assert Now() == Split(old(Now()), i, slot);
        }
        SplitSound(old(Now()), i);
        assert Now() == Split(old(Now()), i, slot);
      }
      k := TableAt(g, i);
    }

    /** Writes an identity map into the next table of the pool. */
    method Fill(slot: nat, i: nat)
      requires Shape(Now()) && slot < MAX_SPLIT_PTS
      modifies this`pts
      ensures pts == old(pts)[slot := Identity(i)]
    {
      ghost var rest := pts;
      for j := 0 to 512
        invariant |pts| == MAX_SPLIT_PTS && |pts[slot]| == 512 && pts == rest[slot := pts[slot]]
        invariant forall n :: 0 <= n < j ==> pts[slot][n] == Identity(i)[n]
      {
        pts := pts[slot := pts[slot][j := Entry(true, false, false, false, i * 512 + j)]];
      }
      assert pts[slot] == Identity(i);
    }

    /** The address field of a directory entry, null for the empty entries above GiB 0. */
    method TableAt(g: nat, i: nat) returns (k: Option<nat>)
      requires Valid() && g < 4 && i < 512 && !pds[g][i].huge
      ensures k.Some? <==> g == 0
      ensures k.Some? ==> k.value == pds[0][i].at < MAX_SPLIT_PTS
    {
      if g == 0 { assert Region(Now(), i); } else { assert HighGib(Now(), g); }
      if pds[g][i] == ZERO { return None; }
      return Some(pds[g][i].at);
    }

    /** mark_user_covering_levels: no page's access changes. */
    method MarkUser(addr: nat)
      requires Valid()
      modifies this`root, this`pdpt, this`pds
      ensures Valid()
      ensures forall p :: Real(p) ==> ViewAt(p) == old(ViewAt(p))
      ensures addr < GIB ==> Now() == Cover(old(Now()), addr / TWO_MIB)
      ensures addr >= GIB ==> pds == old(pds) && pdpt == old(pdpt)
    {
      var g, i := addr / GIB, addr % GIB / TWO_MIB;
      if g >= 4 { return; }
      root := root.(user := true);
      if pdpt[g].huge {
        RootSound(old(Now()));
        return;
      }
      IsDirectory(old(Now()), g);
      pdpt := pdpt[g := pdpt[g].(user := true)];
      if !pds[g][i].huge { pds := pds[g := pds[g][i := pds[g][i].(user := true)]]; }
      assert Now() == Cover(old(Now()), i);
      CoverSound(old(Now()), i);
      forall p | Real(p) ensures Look(Now(), p) == Look(old(Now()), p) { CoverLook(old(Now()), i, p); }
    }

    /** set_attrs on one 2 MiB region of GiB 0. */
    method SetRegion(i: nat, us: bool, nx: bool)
      requires Valid() && i < 512
      modifies this`root, this`pdpt, this`pds, this`pts
      ensures Valid()
      ensures forall a :: 0 <= a < 512 ==> pds[0][a].huge == old(pds[0][a].huge)
      ensures forall p :: Real(p) ==>
        ViewAt(p) == if p.g == 0 && p.i == i then Attributed(old(ViewAt(p)), us, nx) else old(ViewAt(p))
    {
      if us { MarkUser(i * TWO_MIB); }
      ghost var t := Now();
      var e := pds[0][i];
      assert Region(t, i);
      assert us ==> t.pdpt[0].user && (!e.huge ==> e.user);
      if e.huge {
        pds := pds[0 := pds[0][i := e.(user := us, nx := nx)]];
        LeafSound(t, i, e.(user := us, nx := nx));
        forall p | Real(p) ensures Look(Now(), p) == if p.g == 0 && p.i == i then Attributed(Look(t, p), us, nx) else Look(t, p) {
          LeafLook(t, i, e.(user := us, nx := nx), p);
        }
      } else {
        Paint(e.at, us, nx);
        var tbl := pts[e.at];
        TableSound(t, i, tbl);
        forall p | Real(p) ensures Look(Now(), p) == if p.g == 0 && p.i == i then Attributed(Look(t, p), us, nx) else Look(t, p) {
          TableLook(t, i, tbl, p);
        }
      }
    }

    /** Sets the attributes of every present entry of one page table. */
    method Paint(k: nat, us: bool, nx: bool)
      requires Shape(Now()) && k < MAX_SPLIT_PTS
      modifies this`pts
      ensures |pts| == MAX_SPLIT_PTS && pts == old(pts)[k := pts[k]] && |pts[k]| == 512
      ensures forall j :: 0 <= j < 512 ==> pts[k][j] == Painted(old(pts)[k][j], us, nx)
    {
      ghost var rest := pts;
      for j := 0 to 512
        invariant |pts| == MAX_SPLIT_PTS && |pts[k]| == 512 && pts == rest[k := pts[k]]
        invariant forall n :: 0 <= n < j ==> pts[k][n] == Painted(rest[k][n], us, nx)
        invariant forall n :: j <= n < 512 ==> pts[k][n] == rest[k][n]
      {
        if pts[k][j].present { pts := pts[k := pts[k][j := pts[k][j].(user := us, nx := nx)]]; }
      }
    }

    /** set_attrs: changes the access of exactly the present pages of GiB 0 inside the range. */
    method SetAttrs(start: nat, end: nat, us: bool, nx: bool)
      requires Valid() && start % TWO_MIB == 0 && end % TWO_MIB == 0
      modifies this`root, this`pdpt, this`pds, this`pts
      ensures Valid()
      ensures forall a :: 0 <= a < 512 ==> pds[0][a].huge == old(pds[0][a].huge)
      ensures forall p :: Real(p) ==>
        ViewAt(p) == if p.g == 0 && start / TWO_MIB <= p.i < end / TWO_MIB then Attributed(old(ViewAt(p)), us, nx) else old(ViewAt(p))
    {
      var a := start;
      while a < end
        invariant Valid() && a % TWO_MIB == 0 && start <= a
        invariant forall n :: 0 <= n < 512 ==> pds[0][n].huge == old(pds[0][n].huge)
        invariant forall p :: Real(p) ==>
          ViewAt(p) == if p.g == 0 && start / TWO_MIB <= p.i < end / TWO_MIB && p.i < a / TWO_MIB
                       then Attributed(old(ViewAt(p)), us, nx) else old(ViewAt(p))
      {
        var g := a / GIB;
        if g >= 4 { break; }
        IsDirectory(Now(), g);
        if !pdpt[g].huge { SetRegion(a % GIB / TWO_MIB, us, nx); }
        a := a + TWO_MIB;
      }
    }

    /** set_page_us: the user bit of one page, splitting its region first. */
    method SetPageUs(addr: nat, us: bool)
      requires Valid()
      modifies this`root, this`pdpt, this`pds, this`pts, this`splitNext
      ensures Valid()
      ensures forall p :: Real(p) ==>
        var v := old(AfterSplit(addr, p));
        ViewAt(p) == if old(Reachable(addr)) && p == PageAt(addr) && v.Mapped? then v.(user := us) else v
    {
      var k := EnsurePt(addr);
      if k == None { return; }
      if us { MarkUser(addr); }
      var i, j := addr / TWO_MIB, addr % TWO_MIB / FOUR_KIB;
      SetEntry(i, j, pts[k.value][j].(user := us));
    }

    /** Writes one entry of a split region's table, whose covering levels allow it. */
    method SetEntry(i: nat, j: nat, f: Entry)
      requires Valid() && i < 512 && j < 512 && !pds[0][i].huge && (f.user ==> pds[0][i].user)
      modifies this`pts
      ensures Valid()
      ensures forall p :: Real(p) ==> ViewAt(p) == if p == Page(0, i, j) then ViewOf(f) else old(ViewAt(p))
    {
      ghost var t := Now();
      assert Region(t, i);
      var k := pds[0][i].at;
      var tbl := pts[k][j := f];
      pts := pts[k := tbl];
      TableSound(t, i, tbl);
      forall p | Real(p) ensures Look(Now(), p) == if p == Page(0, i, j) then ViewOf(f) else Look(t, p) {
        TableLook(t, i, tbl, p);
      }
    }

    /** map_guard_page: exactly one page becomes absent. */
    method MapGuard(addr: nat) returns (r: nat)
      requires Valid()
      modifies this`root, this`pdpt, this`pds, this`pts, this`splitNext
      ensures Valid()
      ensures r == if old(Reachable(addr)) then addr / FOUR_KIB * FOUR_KIB else 0
      ensures splitNext == old(splitNext) + if addr < GIB && old(pds[0][addr / TWO_MIB].huge) then 1 else 0
      ensures forall p :: Real(p) ==>
        ViewAt(p) == if old(Reachable(addr)) && p == PageAt(addr) then Absent else old(AfterSplit(addr, p))
      ensures forall i :: 0 <= i < 512 && !old(pds[0][i].huge) ==> !pds[0][i].huge
    {
      var k := EnsurePt(addr);
      if k == None { return 0; }
      SetEntry(addr / TWO_MIB, addr % TWO_MIB / FOUR_KIB, ZERO);
      return addr / FOUR_KIB * FOUR_KIB;
    }

    /** Points one page at a frame, for user access. */
    method MapUser(addr: nat, frame: nat) returns (ok: bool)
      requires Valid()
      modifies this`root, this`pdpt, this`pds, this`pts, this`splitNext
      ensures Valid() && ok == old(Reachable(addr))
      ensures forall p :: Real(p) ==>
        ViewAt(p) == if ok && p == PageAt(addr) then Mapped(frame, true, false) else old(AfterSplit(addr, p))
      ensures forall i :: 0 <= i < 512 && !old(pds[0][i].huge) ==> !pds[0][i].huge
    {
      var k := EnsurePt(addr);
      if k == None { return false; }
      MarkUser(addr);
      SetEntry(addr / TWO_MIB, addr % TWO_MIB / FOUR_KIB, Entry(true, true, false, false, frame));
      return true;
    }

    /** user_accessible: true exactly when every byte of the range lies in the map and its page
        walks to present and user at every level. */
    method UserAccessible(addr: nat, len: nat) returns (ok: bool)
      requires Valid() && addr < U64 && len < U64
      ensures Pointers(Now()) && (ok <==> forall x :: addr <= x < addr + len ==> UserByte(Now(), x))
    {
      SoundPointers(Now());
      hide Sound, Shape, Pointers, UserByte, UserUpTo, PageVetted, Aligned, PageBase;
      if len == 0 { return true; }
      if addr + len >= U64 {
        OutOfMap(Now(), addr + len - 1);
        return false;
      }
      var end := addr + len;
      if end > 4 * GIB {
        OutOfMap(Now(), end - 1);
        return false;
      }
      var a := PageBase(addr);
      NoneYet(Now(), addr, end);
      while a < end
        invariant Aligned(a) && PageBase(addr) <= a && UserUpTo(Now(), addr, end, a)
        decreases end + FOUR_KIB - a
      {
        if !PageVetted(Now(), a) {
          Refused(Now(), addr, end, a);
          return false;
        }
        UpToNext(Now(), addr, end, a);
        a := a + FOUR_KIB;
      }
      AllVetted(Now(), addr, end, a);
      return true;
    }

    // ---- boot ----

    constructor (scratchBase: nat)
      requires scratchBase >= 512
      ensures Confined() && low == map[] && guards == {} && splitNext == 9 && scratchNext == 0
      ensures this.scratchBase == scratchBase
      ensures Pointers(Now()) && forall x: nat :: UserByte(Now(), x) <==> UserAddress(x)
      ensures forall x: nat :: x < 4 * GIB ==> Real(PageAt(x)) && Walk(Now(), PageAt(x)) == Mapped(x / FOUR_KIB, UserAddress(x), NxAddress(x))
    {
      this.scratchBase := scratchBase;
      scratchNext, low, guards := 0, map[], {};
      nextTid, kstackNext := 1, KSTACK_ARENA_BASE;
      root, pdpt, splitNext := ZERO, seq(4, _ => ZERO), 0;
      pds, pts := seq(4, _ => seq(512, _ => ZERO)), seq(MAX_SPLIT_PTS, _ => seq(512, _ => ZERO));
      new;
      hide Sound, Look, BootView, Number;
      Boot();
      BootWalk(0);
      forall x: nat | x < 4 * GIB ensures Real(PageAt(x)) && Walk(Now(), PageAt(x)) == Mapped(x / FOUR_KIB, UserAddress(x), NxAddress(x)) {
        BootWalk(x);
      }
    }

    /** The walk of any address right after boot. */
    lemma BootWalk(x: nat)
      requires Confined() && low == map[] && guards == {} && x < 4 * GIB
      ensures Pointers(Now()) && Real(PageAt(x)) && Walk(Now(), PageAt(x)) == Mapped(x / FOUR_KIB, UserAddress(x), NxAddress(x))
    {
      PageNumber(x);
      BootAddress(x);
      LookIsWalk(Now(), PageAt(x));
      assert ViewAt(PageAt(x)) == RunView(PageAt(x), scratchBase, low, guards);
    }

    method Boot()
      requires Shape(Now()) && splitNext == 0 && forall g :: 0 <= g < 4 ==> forall i :: 0 <= i < 512 ==> pds[g][i] == ZERO
      requires scratchBase >= 512 && low == map[] && guards == {} && nextTid == 1 && kstackNext == KSTACK_ARENA_BASE
      modifies this`root, this`pdpt, this`pds, this`pts, this`splitNext
      ensures Confined() && splitNext == 9
    {
      hide Sound, Look, Real, BootView, Number, Shape;
      BuildMap();
      PreSplit();
      AttributeRegions();
    }

    /** The identity map of 2 MiB pages in GiB 0 and 1 GiB pages above. */
    method BuildMap()
      requires Shape(Now()) && splitNext == 0 && forall g :: 0 <= g < 4 ==> forall i :: 0 <= i < 512 ==> pds[g][i] == ZERO
      modifies this`root, this`pdpt, this`pds
      ensures Valid() && forall i :: 0 <= i < 512 ==> pds[0][i].huge
      ensures forall p :: Real(p) ==> ViewAt(p) == Mapped(Number(p), 0 < p.g < 3, false)
    {
      for i := 0 to 512
        invariant |pdpt| == 4 && |pds| == 4 && (forall g :: 0 <= g < 4 ==> Full(pds[g]))
        invariant forall g :: 0 < g < 4 ==> pds[g] == old(pds[g])
        invariant forall n :: 0 <= n < i ==> pds[0][n] == Entry(true, false, true, false, n * 512)
      {
        pds := pds[0 := pds[0][i := Entry(true, false, true, false, i * 512)]];
      }
      pdpt := pdpt[0 := Entry(true, true, false, false, 0)];
      ghost var built := pds;
      for g := 1 to 4
        invariant pds == built
        invariant |pdpt| == 4 && pdpt[0] == Entry(true, true, false, false, 0)
        invariant forall n :: 1 <= n < g ==> pdpt[n] == Entry(true, n < 3, true, false, n * GIB_PAGES)
      {
        pdpt := pdpt[g := Entry(true, g < 3, true, false, g * GIB_PAGES)];
      }
      root := Entry(true, true, false, false, 0);
      forall g | 0 < g < 4 ensures HighGib(Now(), g) { assert pds[g] == old(pds[g]); }
      forall i | 0 <= i < 512 ensures Region(Now(), i) {}
    }

    /** The arena and the low 2 MiB become 4 KiB pages before any core uses the map. */
    method PreSplit()
      requires Valid() && splitNext == 0 && forall i :: 0 <= i < 512 ==> pds[0][i].huge
      requires forall p :: Real(p) ==> ViewAt(p) == Mapped(Number(p), 0 < p.g < 3, false)
      modifies this`pds, this`pts, this`splitNext
      ensures Valid() && splitNext == 9
      ensures forall i :: 0 <= i < 512 ==> (pds[0][i].huge <==> i != 0 && !InArena(i))
      ensures forall p :: Real(p) ==> ViewAt(p) == Mapped(Number(p), 0 < p.g < 3, false)
    {
      for n := 0 to 8
        invariant Valid() && splitNext == n
        invariant forall i :: 0 <= i < 512 ==> (pds[0][i].huge <==> !(ARENA_FIRST <= i < ARENA_FIRST + n))
        invariant forall p :: Real(p) ==> ViewAt(p) == Mapped(Number(p), 0 < p.g < 3, false)
      {
        var _ := EnsurePt(0x0700_0000 + n * TWO_MIB);
      }
      var _ := EnsurePt(0);
    }

    /** The fixed labels: BEAM image and heap, user stack, JIT and mmap, and kernel data. */
    method AttributeRegions()
      requires Valid() && forall p :: Real(p) ==> ViewAt(p) == Mapped(Number(p), 0 < p.g < 3, false)
      modifies this`root, this`pdpt, this`pds, this`pts
      ensures Valid() && forall a :: 0 <= a < 512 ==> pds[0][a].huge == old(pds[0][a].huge)
      ensures forall p :: Real(p) ==> ViewAt(p) == BootView(p)
    {
      SetAttrs(0x0040_0000, 0x0700_0000, true, false);
      SetAttrs(0x0E00_0000, 0x0E20_0000, true, true);
      SetAttrs(0x1A00_0000, 0x4000_0000, true, false);
      SetAttrs(0x0F20_0000, 0x1A00_0000, false, true);
    }

    // ---- after boot ----

    /** The map is the boot map except for scratch and guard pages; scratch slots are not shared;
        the low 2 MiB and the arena are split. */
    ghost predicate Confined()
      reads this
    {
      && Valid() && scratchBase >= 512
      && (forall p :: Real(p) ==> ViewAt(p) == RunView(p, scratchBase, low, guards))
      && !pds[0][0].huge && (forall i: nat :: InArena(i) ==> !pds[0][i].huge)
      && Slots(low, scratchNext)
      && (forall n :: n in guards ==> InArena(n / 512))
      && nextTid >= 1 && kstackNext == KSTACK_ARENA_BASE + (StacksUsed(nextTid) * KSTACK_STRIDE)
    }

    /** The stack allocation of sched::spawn: a slot of the arena with a guard page below the stack.
        The arena is never used up, since thread numbers run out first, so the guard never needs a
        split; the slot is past every earlier one. */
    method InstallGuard() returns (slot: Option<nat>)
      requires Confined()
      modifies this
      ensures Confined() && low == old(low) && nextTid == old(nextTid) + 1 && splitNext == old(splitNext)
      ensures slot == if old(nextTid) < 32 then Some(old(kstackNext)) else None
      ensures slot == None ==> guards == old(guards) && kstackNext == old(kstackNext)
      ensures slot.Some? ==>
        && 0x0700_0000 <= slot.value && slot.value + 0x6000 <= 0x0800_0000
        && kstackNext == slot.value + 0x6000
        && guards == old(guards) + {Number(PageAt(slot.value))} && ViewAt(PageAt(slot.value)) == Absent
    {
      hide Sound, Look, Real, RunView, Number, PageAt, Slots;
      var tid := nextTid;
      nextTid := nextTid + 1;
      if tid >= MAX_THREADS { return None; }
      var addr := kstackNext;
      kstackNext := kstackNext + KSTACK_STRIDE;
      SlotInArena(tid);
      PutGuard(addr);
      return Some(addr);
    }

    method PutGuard(addr: nat)
      requires Confined() && InArena(addr / TWO_MIB)
      modifies this`root, this`pdpt, this`pds, this`pts, this`splitNext, this`guards
      ensures Confined() && guards == old(guards) + {Number(PageAt(addr))} && splitNext == old(splitNext)
      ensures ViewAt(PageAt(addr)) == Absent
    {
      var _ := MapGuard(addr);
      guards := guards + {Number(PageAt(addr))};
      ArenaPage(addr);
      forall p | Real(p) && Number(p) == Number(PageAt(addr)) ensures p == PageAt(addr) { NumberInjective(p, PageAt(addr)); }
    }

    /** map_low_scratch: a stray user access to the low 2 MiB gets a scratch frame of its own. */
    method MapLowScratch(addr: nat) returns (ok: bool)
      requires Confined()
      modifies this
      ensures Confined() && guards == old(guards)
      ensures ok <==> addr < TWO_MIB && old(scratchNext) < 16
      ensures low == if ok then old(low)[addr / FOUR_KIB := old(scratchNext)] else old(low)
      ensures ok ==> Pointers(Now()) && Real(PageAt(addr)) && Walk(Now(), PageAt(addr)) == Mapped(scratchBase + old(scratchNext), true, false)
    {
      if addr / FOUR_KIB * FOUR_KIB >= TWO_MIB { return false; }
      SlotTaken(low, scratchNext, addr / FOUR_KIB);
      hide Sound, Look, Real, RunView, Number, PageAt, Slots;
      var slot := scratchNext;
      scratchNext := scratchNext + 1;
      if slot >= LOW_SCRATCH_FRAMES { return false; }
      PutScratch(addr, slot);
      ScratchWalk(addr);
      return true;
    }

    lemma ScratchWalk(addr: nat)
      requires Confined() && addr < TWO_MIB && addr / FOUR_KIB in low
      ensures Pointers(Now()) && Real(PageAt(addr)) && Walk(Now(), PageAt(addr)) == Mapped(scratchBase + low[addr / FOUR_KIB], true, false)
    {
      PageNumber(addr);
      LookIsWalk(Now(), PageAt(addr));
      assert ViewAt(PageAt(addr)) == RunView(PageAt(addr), scratchBase, low, guards);
    }

    method PutScratch(addr: nat, slot: nat)
      requires Confined() && addr < TWO_MIB && Slots(low[addr / FOUR_KIB := slot], scratchNext)
      modifies this`root, this`pdpt, this`pds, this`pts, this`splitNext, this`low
      ensures Confined() && low == old(low)[addr / FOUR_KIB := slot]
    {
      LowPage(addr);
      hide Sound, Look, Real, RunView, Number, PageAt, Slots;
      MapLow(addr, scratchBase + slot);
      low := low[addr / FOUR_KIB := slot];
      forall p | Real(p) ensures ViewAt(p) == RunView(p, scratchBase, low, guards) {
        Remapped(p, scratchBase, old(low), guards, addr / FOUR_KIB, slot);
        if Number(p) == addr / FOUR_KIB { NumberInjective(p, PageAt(addr)); }
      }
    }

    /** Points a page of the low 2 MiB, which is split, at a frame. */
    method MapLow(addr: nat, frame: nat)
      requires Valid() && addr < TWO_MIB && !pds[0][0].huge
      modifies this`root, this`pdpt, this`pds, this`pts, this`splitNext
      ensures Valid() && forall i :: 0 <= i < 512 && !old(pds[0][i].huge) ==> !pds[0][i].huge
      ensures forall p :: Real(p) ==> ViewAt(p) == if p == PageAt(addr) then Mapped(frame, true, false) else old(ViewAt(p))
    {
      var _ := MapUser(addr, frame);
    }

    /** What the processor makes of an address in any state reached after boot.  An address of the low
        2 MiB may be remapped to a scratch frame; a guard page in the arena may be absent; every other
        address maps to itself, with exactly the access of the memory map. */
    lemma Confinement(x: nat)
      requires Confined() && x < 4 * GIB
      ensures Pointers(Now()) && Real(PageAt(x))
      ensures var v := Walk(Now(), PageAt(x));
        if x < TWO_MIB && v.Mapped? && v.frame != x / FOUR_KIB
        then v.user && !v.nx && scratchBase <= v.frame < scratchBase + 16
        else v == Mapped(x / FOUR_KIB, UserAddress(x), NxAddress(x)) || (v == Absent && ArenaAddress(x))
      ensures UserByte(Now(), x) ==> UserAddress(x) || x < TWO_MIB
    {
      PageNumber(x);
      BootAddress(x);
      LookIsWalk(Now(), PageAt(x));
      assert ViewAt(PageAt(x)) == RunView(PageAt(x), scratchBase, low, guards);
    }

    /** Distinct low pages never share a scratch frame. */
    lemma ScratchNotShared(p: Page, q: Page)
      requires Confined() && Real(p) && Real(q) && p != q && Number(p) in low && Number(q) in low
      ensures Pointers(Now()) && Walk(Now(), p).Mapped? && Walk(Now(), q).Mapped? && Walk(Now(), p).frame != Walk(Now(), q).frame
    {
      LookIsWalk(Now(), p);
      LookIsWalk(Now(), q);
      assert ViewAt(p) == RunView(p, scratchBase, low, guards) && ViewAt(q) == RunView(q, scratchBase, low, guards);
      if Number(p) == Number(q) { NumberInjective(p, q); }
    }
  }

  lemma IsLow(t: Tables, g: nat, i: nat)
    requires Sound(t) && g < 4 && i < 512
    ensures t.pds[g][i].huge ==> g == 0
  {
    if g > 0 { assert HighGib(t, g); }
  }

  lemma IsDirectory(t: Tables, g: nat)
    requires Sound(t) && g < 4
    ensures t.pdpt[g].huge <==> g > 0
  {
    if g > 0 { assert HighGib(t, g); }
  }

  lemma MoreSplits(t: Tables, n: nat)
    requires Sound(t) && n >= t.splitNext
    ensures Sound(t.(splitNext := n))
    ensures forall p :: Real(p) ==> Look(t.(splitNext := n), p) == Look(t, p)
  {
    var t' := t.(splitNext := n);
    forall i | 0 <= i < 512 ensures Region(t', i) { assert Region(t, i); }
    forall g | 0 < g < 4 ensures HighGib(t', g) { assert HighGib(t, g); }
  }

  lemma RootSound(t: Tables)
    requires Sound(t)
    ensures Sound(t.(root := t.root.(user := true)))
    ensures forall p :: Real(p) ==> Look(t.(root := t.root.(user := true)), p) == Look(t, p)
  {
    var t' := t.(root := t.root.(user := true));
    forall i | 0 <= i < 512 ensures Region(t', i) { assert Region(t, i); }
    forall g | 0 < g < 4 ensures HighGib(t', g) { assert HighGib(t, g); }
  }

  lemma SamePage(a: nat, x: nat)
    requires a % FOUR_KIB == 0 && a <= x < a + FOUR_KIB
    ensures PageAt(x) == PageAt(a)
  {
    WithinGib(a, x);
    WithinTwoMib(a % GIB, x % GIB);
    WithinTwoMib(a, x);
    var b, d := a % TWO_MIB, x - a;
    assert (b + d) / FOUR_KIB == b / FOUR_KIB;
  }

  /** An aligned page does not straddle a larger aligned block. */
  lemma WithinGib(a: nat, x: nat)
    requires a % FOUR_KIB == 0 && a <= x < a + FOUR_KIB
    ensures x / GIB == a / GIB && x % GIB == a % GIB + (x - a) && a % GIB % FOUR_KIB == 0
  {
    var n, q := a / FOUR_KIB, a / GIB;
    var b := a - q * GIB;
    assert b == (n - q * GIB_PAGES) * FOUR_KIB;
    assert 0 <= n - q * GIB_PAGES < GIB_PAGES;
    assert x == q * GIB + (b + (x - a));
  }

  lemma WithinTwoMib(a: nat, x: nat)
    requires a % FOUR_KIB == 0 && a <= x < a + FOUR_KIB
    ensures x / TWO_MIB == a / TWO_MIB && x % TWO_MIB == a % TWO_MIB + (x - a) && a % TWO_MIB % FOUR_KIB == 0
  {
    var n, q := a / FOUR_KIB, a / TWO_MIB;
    var b := a - q * TWO_MIB;
    assert b == (n - q * 512) * FOUR_KIB;
    assert 0 <= n - q * 512 < 512;
    assert x == q * TWO_MIB + (b + (x - a));
  }

  // ---- user_accessible ----

  predicate Aligned(a: nat) {
    a % FOUR_KIB == 0
  }

  function PageBase(a: nat): nat {
    a / FOUR_KIB * FOUR_KIB
  }

  /** page_is_user of the page at address x. */
  predicate PageVetted(t: Tables, x: nat)
    requires Shape(t) && Pointers(t) && x < 4 * GIB
  {
    PageIsUser(t, PageAt(x))
  }

  /** Every byte of the range below a is on a page that page_is_user accepts. */
  predicate UserUpTo(t: Tables, addr: nat, end: nat, a: nat)
    requires Shape(t) && Pointers(t) && end <= 4 * GIB
  {
    forall x :: addr <= x < end && x < a ==> PageVetted(t, x)
  }

  lemma OutOfMap(t: Tables, x: nat)
    requires Shape(t) && Pointers(t) && x >= 4 * GIB
    ensures !UserByte(t, x)
  {
  }

  lemma NoneYet(t: Tables, addr: nat, end: nat)
    requires Shape(t) && Pointers(t) && end <= 4 * GIB
    ensures Aligned(PageBase(addr)) && UserUpTo(t, addr, end, PageBase(addr))
  {
  }

  lemma SameVerdict(t: Tables, a: nat, x: nat)
    requires Shape(t) && Pointers(t) && Aligned(a) && a <= x < a + FOUR_KIB && x < 4 * GIB
    ensures PageVetted(t, x) == PageVetted(t, a)
  {
    SamePage(a, x);
  }

  lemma UpToNext(t: Tables, addr: nat, end: nat, a: nat)
    requires Shape(t) && Pointers(t) && end <= 4 * GIB && Aligned(a) && a < end
    requires UserUpTo(t, addr, end, a) && PageVetted(t, a)
    ensures Aligned(a + FOUR_KIB) && UserUpTo(t, addr, end, a + FOUR_KIB)
  {
    hide PageVetted;
    forall x | addr <= x < end && x < a + FOUR_KIB ensures PageVetted(t, x) {
      if x >= a { SameVerdict(t, a, x); }
    }
  }

  lemma VettedIsUser(t: Tables, x: nat)
    requires Shape(t) && Pointers(t) && x < 4 * GIB
    ensures PageVetted(t, x) <==> UserByte(t, x)
  {
    hide PageIsUser, Walk;
    UserIsWalk(t, PageAt(x));
  }

  lemma AllVetted(t: Tables, addr: nat, end: nat, a: nat)
    requires Shape(t) && Pointers(t) && end <= 4 * GIB && end <= a && UserUpTo(t, addr, end, a)
    ensures forall x :: addr <= x < end ==> UserByte(t, x)
  {
    hide PageVetted, UserByte;
    forall x | addr <= x < end ensures UserByte(t, x) { VettedIsUser(t, x); }
  }

  /** One page refused is one byte of the range refused. */
  lemma Refused(t: Tables, addr: nat, end: nat, a: nat)
    requires Shape(t) && Pointers(t) && addr < end <= 4 * GIB && Aligned(a) && PageBase(addr) <= a < end && !PageVetted(t, a)
    ensures exists x :: addr <= x < end && !UserByte(t, x)
  {
    hide PageVetted, UserByte;
    var x := if a < addr then addr else a;
    SameVerdict(t, a, x);
    VettedIsUser(t, x);
  }

  lemma NumberInjective(p: Page, q: Page)
    requires Real(p) && Real(q) && Number(p) == Number(q)
    ensures p == q
  {
  }

  /** Stacks allocated once thread numbers below `next` are used; number 0 is the main thread. */
  function StacksUsed(next: nat): nat
    requires next >= 1
  {
    if next < MAX_THREADS then next - 1 else MAX_THREADS - 1
  }

  lemma SlotInArena(tid: nat)
    requires 1 <= tid < MAX_THREADS
    ensures var a := KSTACK_ARENA_BASE + (tid - 1) * KSTACK_STRIDE;
      InArena(a / TWO_MIB) && a + KSTACK_STRIDE <= KSTACK_ARENA_BASE + KSTACK_ARENA_SIZE
  {
  }

  lemma ArenaPage(addr: nat)
    requires InArena(addr / TWO_MIB)
    ensures Real(PageAt(addr)) && PageAt(addr).g == 0 && PageAt(addr).i == addr / TWO_MIB
    ensures Number(PageAt(addr)) / 512 == addr / TWO_MIB
  {
  }

  lemma LowPage(addr: nat)
    requires addr < TWO_MIB
    ensures Real(PageAt(addr)) && PageAt(addr) == Page(0, 0, addr / FOUR_KIB) && Number(PageAt(addr)) == addr / FOUR_KIB < 512
  {
  }
}

/** The page tables of src/memory/paging.rs as values, and what a walk through them yields.  One PML4
    entry covers the 4 GiB identity map; GiB 0 is a page directory whose 2 MiB entries can be split
    into page tables from a fixed pool; GiB 1 to 3 are 1 GiB pages. */
module PagingTables {
  const GIB: nat := 0x4000_0000
  const TWO_MIB: nat := 0x20_0000
  const FOUR_KIB: nat := 0x1000
  const MAX_SPLIT_PTS: nat := 16
  const GIB_PAGES: nat := 0x4_0000

  /** The bits the model tells apart.  `at` is the frame number of a leaf or, in a non-leaf entry,
      the number of the table it points to. */
  datatype Entry = Entry(present: bool, user: bool, huge: bool, nx: bool, at: nat)

  const ZERO := Entry(false, false, false, false, 0)

  /** A 4 KiB page by its index at each level. */
  datatype Page = Page(g: nat, i: nat, j: nat)

  predicate Real(p: Page) {
    p.g < 4 && p.i < 512 && p.j < 512
  }

  function Number(p: Page): nat {
    p.g * GIB_PAGES + p.i * 512 + p.j
  }

  function PageAt(addr: nat): Page {
    Page(addr / GIB, addr % GIB / TWO_MIB, addr % TWO_MIB / FOUR_KIB)
  }

  datatype Tables = Tables(root: Entry, pdpt: seq<Entry>, pds: seq<seq<Entry>>, pts: seq<seq<Entry>>, splitNext: nat)

  predicate Full(tbl: seq<Entry>) {
    |tbl| == 512
  }

  predicate Shape(t: Tables) {
    && |t.pdpt| == 4 && |t.pds| == 4 && |t.pts| == MAX_SPLIT_PTS
    && (forall g :: 0 <= g < 4 ==> Full(t.pds[g]))
    && (forall k :: 0 <= k < MAX_SPLIT_PTS ==> Full(t.pts[k]))
  }

  /** What the processor makes of a page: absent, or a frame with the AND of the user bits and the
      OR of the no-execute bits on the way (section 4.6 of the Intel SDM, volume 3A). */
  datatype View = Absent | Mapped(frame: nat, user: bool, nx: bool)

  predicate Pointers(t: Tables)
    requires Shape(t)
  {
    && (forall g :: 0 <= g < 4 && t.pdpt[g].present && !t.pdpt[g].huge ==> t.pdpt[g].at < 4)
    && (forall g, i :: 0 <= g < 4 && 0 <= i < 512 && t.pds[g][i].present && !t.pds[g][i].huge ==> t.pds[g][i].at < MAX_SPLIT_PTS)
  }

  function Walk(t: Tables, p: Page): View
    requires Shape(t) && Pointers(t) && Real(p)
  {
    var d := t.pdpt[p.g];
    if !t.root.present || !d.present then Absent
    else if d.huge then Mapped(d.at + p.i * 512 + p.j, t.root.user && d.user, t.root.nx || d.nx)
    else
      var e := t.pds[d.at][p.i];
      if !e.present then Absent
      else if e.huge then Mapped(e.at + p.j, t.root.user && d.user && e.user, t.root.nx || d.nx || e.nx)
      else
        var f := t.pts[e.at][p.j];
        if !f.present then Absent
        else Mapped(f.at, t.root.user && d.user && e.user && f.user, t.root.nx || d.nx || e.nx || f.nx)
  }

  /** page_is_user: present and user at every level, stopping at a leaf. */
  predicate PageIsUser(t: Tables, p: Page)
    requires Shape(t) && Pointers(t) && Real(p)
  {
    && t.root.present && t.root.user
    && t.pdpt[p.g].present && t.pdpt[p.g].user
    && (t.pdpt[p.g].huge ||
        (var e := t.pds[t.pdpt[p.g].at][p.i];
         && e.present && e.user
         && (e.huge || (t.pts[e.at][p.j].present && t.pts[e.at][p.j].user))))
  }

  lemma UserIsWalk(t: Tables, p: Page)
    requires Shape(t) && Pointers(t) && Real(p)
    ensures PageIsUser(t, p) <==> Walk(t, p).Mapped? && Walk(t, p).user
  {
  }

  // ---- the invariant ----

  /** GiB 1 to 3: one large page each, and an unused page directory. */
  predicate HighGib(t: Tables, g: nat)
    requires Shape(t) && 0 < g < 4
  {
    && t.pdpt[g].present && t.pdpt[g].huge && !t.pdpt[g].nx && t.pdpt[g].at == g * GIB_PAGES
    && (t.pdpt[g].user ==> t.root.user)
    && forall i :: 0 <= i < 512 ==> t.pds[g][i] == ZERO
  }

  /** One 2 MiB region of GiB 0: a large page mapping itself, or a table of its own from the pool.
      A user entry is covered by user entries above it. */
  predicate Region(t: Tables, i: nat)
    requires Shape(t) && i < 512
  {
    var e := t.pds[0][i];
    && e.present
    && (if e.huge then e.at == i * 512
        else !e.nx && e.at < t.splitNext && e.at < MAX_SPLIT_PTS
             && forall j :: 0 <= j < 512 && t.pts[e.at][j].user ==> e.user)
    && (e.user ==> t.pdpt[0].user)
  }

  predicate OwnTables(t: Tables)
    requires Shape(t)
  {
    forall a, b :: 0 <= a < b < 512 && !t.pds[0][a].huge && !t.pds[0][b].huge ==> t.pds[0][a].at != t.pds[0][b].at
  }

  predicate Sound(t: Tables) {
    && Shape(t)
    && t.root.present && !t.root.huge && !t.root.nx
    && t.pdpt[0].present && !t.pdpt[0].huge && !t.pdpt[0].nx && t.pdpt[0].at == 0 && (t.pdpt[0].user ==> t.root.user)
    && (forall g :: 0 < g < 4 ==> HighGib(t, g))
    && (forall i :: 0 <= i < 512 ==> Region(t, i))
    && OwnTables(t)
  }

  lemma SoundPointers(t: Tables)
    requires Sound(t)
    ensures Pointers(t)
  {
    forall g, i | 0 <= g < 4 && 0 <= i < 512
      ensures t.pds[g][i].present && !t.pds[g][i].huge ==> t.pds[g][i].at < MAX_SPLIT_PTS
    {
      if g == 0 { assert Region(t, i); } else { assert HighGib(t, g); }
    }
    forall g | 0 <= g < 4 ensures t.pdpt[g].present && !t.pdpt[g].huge ==> t.pdpt[g].at < 4 {
      if g > 0 { assert HighGib(t, g); }
    }
  }

  /** The walk of a sound hierarchy, read off the leaf alone: a user leaf is never masked. */
  function Look(t: Tables, p: Page): View
    requires Sound(t) && Real(p)
  {
    if p.g > 0 then
      assert HighGib(t, p.g);
      Mapped(Number(p), t.pdpt[p.g].user, false)
    else
      assert Region(t, p.i);
      var e := t.pds[0][p.i];
      if e.huge then Mapped(Number(p), e.user, e.nx)
      else
        var f := t.pts[e.at][p.j];
        if f.present then Mapped(f.at, f.user, f.nx) else Absent
  }

  /** Every user leaf has the user bit at every covering level: the processor sees it as user. */
  lemma LookIsWalk(t: Tables, p: Page)
    requires Sound(t) && Real(p)
    ensures Pointers(t) && Walk(t, p) == Look(t, p)
  {
    SoundPointers(t);
    if p.g > 0 { assert HighGib(t, p.g); } else { assert Region(t, p.i); }
  }

  // ---- ensure_pt ----

  function Put(t: Tables, i: nat, e: Entry): Tables
    requires Shape(t) && i < 512
  {
    t.(pds := t.pds[0 := t.pds[0][i := e]])
  }

  function PutPt(t: Tables, k: nat, tbl: seq<Entry>): Tables
    requires Shape(t) && k < MAX_SPLIT_PTS && Full(tbl)
  {
    t.(pts := t.pts[k := tbl])
  }

  function Identity(i: nat): seq<Entry> {
    seq(512, (j: nat) => Entry(true, false, false, false, i * 512 + j))
  }

  /** The split of region i into table k: an identity map, supervisor and executable. */
  function Split(t: Tables, i: nat, k: nat): Tables
    requires Shape(t) && i < 512 && k < MAX_SPLIT_PTS
  {
    Put(PutPt(t, k, Identity(i)), i, Entry(true, false, false, false, k)).(splitNext := t.splitNext + 1)
  }

  lemma SplitRegion(t: Tables, i: nat, a: nat)
    requires Sound(t) && i < 512 && t.pds[0][i].huge && t.splitNext < MAX_SPLIT_PTS && a < 512
    ensures var t' := Split(t, i, t.splitNext); Shape(t') && Region(t', a)
  {
    assert Region(t, a);
  }

  lemma SplitSound(t: Tables, i: nat)
    requires Sound(t) && i < 512 && t.pds[0][i].huge && t.splitNext < MAX_SPLIT_PTS
    ensures Sound(Split(t, i, t.splitNext))
  {
    var t' := Split(t, i, t.splitNext);
    forall a | 0 <= a < 512 ensures Region(t', a) { SplitRegion(t, i, a); }
    forall g | 0 < g < 4 ensures HighGib(t', g) { assert HighGib(t, g); }
    forall a, b | 0 <= a < b < 512 && !t'.pds[0][a].huge && !t'.pds[0][b].huge ensures t'.pds[0][a].at != t'.pds[0][b].at {
      assert Region(t, a) && Region(t, b);
    }
  }

  /** Splitting keeps every translation; in the split region it clears the attributes. */
  lemma SplitLook(t: Tables, i: nat, p: Page)
    requires Sound(t) && i < 512 && t.pds[0][i].huge && t.splitNext < MAX_SPLIT_PTS && Real(p)
    ensures var t' := Split(t, i, t.splitNext);
      && Sound(t')
      && Look(t', p) == if p.g == 0 && p.i == i then Mapped(Number(p), false, false) else Look(t, p)
  {
    SplitSound(t, i);
    if p.g == 0 { assert Region(t, p.i); } else { assert HighGib(t, p.g); }
  }

  /** Splitting always keeps the translation; it keeps the access of the region's pages exactly
      when the region was supervisor and executable. */
  lemma SplitTransparentIff(t: Tables, i: nat)
    requires Sound(t) && i < 512 && t.pds[0][i].huge && t.splitNext < MAX_SPLIT_PTS
    ensures var t' := Split(t, i, t.splitNext);
      && Sound(t') && Pointers(t) && Pointers(t')
      && (forall p :: Real(p) && Walk(t, p).Mapped? ==> Walk(t', p).Mapped? && Walk(t', p).frame == Walk(t, p).frame)
      && ((forall p :: Real(p) ==> Walk(t', p) == Walk(t, p)) <==> !t.pds[0][i].user && !t.pds[0][i].nx)
  {
    var t' := Split(t, i, t.splitNext);
    SplitSound(t, i);
    SoundPointers(t);
    SoundPointers(t');
    forall p | Real(p) ensures Walk(t, p) == Look(t, p) && Walk(t', p) == Look(t', p)
      && Look(t', p) == (if p.g == 0 && p.i == i then Mapped(Number(p), false, false) else Look(t, p))
    {
      LookIsWalk(t, p);
      LookIsWalk(t', p);
      SplitLook(t, i, p);
    }
    assert Region(t, i);
    assert Look(t, Page(0, i, 0)) == Mapped(Number(Page(0, i, 0)), t.pds[0][i].user, t.pds[0][i].nx);
  }

  // ---- covering levels ----

  /** mark_user_covering_levels for a page of GiB 0. */
  function Cover(t: Tables, i: nat): Tables
    requires Shape(t) && i < 512
  {
    var t1 := t.(root := t.root.(user := true), pdpt := t.pdpt[0 := t.pdpt[0].(user := true)]);
    if t.pds[0][i].huge then t1 else Put(t1, i, t.pds[0][i].(user := true))
  }

  lemma CoverSound(t: Tables, i: nat)
    requires Sound(t) && i < 512
    ensures Sound(Cover(t, i))
  {
    var t' := Cover(t, i);
    forall a | 0 <= a < 512 ensures Region(t', a) { assert Region(t, a); }
    forall g | 0 < g < 4 ensures HighGib(t', g) { assert HighGib(t, g); }
    forall a, b | 0 <= a < b < 512 && !t'.pds[0][a].huge && !t'.pds[0][b].huge ensures t'.pds[0][a].at != t'.pds[0][b].at {
      assert t.pds[0][a].at != t.pds[0][b].at;
    }
  }

  /** Opening the covering levels changes no page's access. */
  lemma CoverLook(t: Tables, i: nat, p: Page)
    requires Sound(t) && i < 512 && Real(p)
    ensures Sound(Cover(t, i)) && Look(Cover(t, i), p) == Look(t, p)
  {
    CoverSound(t, i);
    if p.g == 0 { assert Region(t, p.i); } else { assert HighGib(t, p.g); }
  }

  // ---- leaves ----

  /** Replacing region i's large page, or its whole table. */
  lemma LeafSound(t: Tables, i: nat, e: Entry)
    requires Sound(t) && i < 512 && t.pds[0][i].huge && e.huge && e.present && e.at == i * 512
    requires e.user ==> t.pdpt[0].user
    ensures Sound(Put(t, i, e))
  {
    var t' := Put(t, i, e);
    forall a | 0 <= a < 512 ensures Region(t', a) { assert Region(t, a); }
    forall g | 0 < g < 4 ensures HighGib(t', g) { assert HighGib(t, g); }
  }

  lemma LeafLook(t: Tables, i: nat, e: Entry, p: Page)
    requires Sound(t) && i < 512 && t.pds[0][i].huge && e.huge && e.present && e.at == i * 512 && Real(p)
    requires e.user ==> t.pdpt[0].user
    ensures Sound(Put(t, i, e))
    ensures Look(Put(t, i, e), p) == if p.g == 0 && p.i == i then Mapped(Number(p), e.user, e.nx) else Look(t, p)
  {
    LeafSound(t, i, e);
    if p.g == 0 { assert Region(t, p.i); } else { assert HighGib(t, p.g); }
  }

  predicate Coverable(t: Tables, i: nat, tbl: seq<Entry>)
    requires Shape(t) && i < 512
  {
    Full(tbl) && forall j :: 0 <= j < 512 && tbl[j].user ==> t.pds[0][i].user
  }

  lemma TableSound(t: Tables, i: nat, tbl: seq<Entry>)
    requires Sound(t) && i < 512 && !t.pds[0][i].huge && Coverable(t, i, tbl)
    ensures t.pds[0][i].at < MAX_SPLIT_PTS && Sound(PutPt(t, t.pds[0][i].at, tbl))
  {
    assert Region(t, i);
    var t' := PutPt(t, t.pds[0][i].at, tbl);
    forall a | 0 <= a < 512 ensures Region(t', a) { assert Region(t, a); }
    forall g | 0 < g < 4 ensures HighGib(t', g) { assert HighGib(t, g); }
    forall a, b | 0 <= a < b < 512 && !t'.pds[0][a].huge && !t'.pds[0][b].huge ensures t'.pds[0][a].at != t'.pds[0][b].at {
      assert t.pds[0][a].at != t.pds[0][b].at;
    }
  }

  function ViewOf(f: Entry): View {
    if f.present then Mapped(f.at, f.user, f.nx) else Absent
  }

  lemma TableLook(t: Tables, i: nat, tbl: seq<Entry>, p: Page)
    requires Sound(t) && i < 512 && !t.pds[0][i].huge && Coverable(t, i, tbl) && Real(p)
    ensures t.pds[0][i].at < MAX_SPLIT_PTS && Sound(PutPt(t, t.pds[0][i].at, tbl))
    ensures Look(PutPt(t, t.pds[0][i].at, tbl), p) == if p.g == 0 && p.i == i then ViewOf(tbl[p.j]) else Look(t, p)
  {
    TableSound(t, i, tbl);
    if p.g == 0 {
      assert Region(t, p.i);
      if p.i != i { assert p.i < i ==> t.pds[0][p.i].huge || t.pds[0][p.i].at != t.pds[0][i].at; }
    } else {
      assert HighGib(t, p.g);
    }
  }
}

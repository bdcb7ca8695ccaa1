/** The free list of the mmap region allocator (src/syscall.rs), as a value: what adding, taking and
    dropping a range do to the set of free addresses and to the list's shape. */
module MmapRegions {
  import opened Wrappers

  const PAGE: nat := 0x1000
  const U64: nat := 0x1_0000_0000_0000_0000

  type u64 = x: nat | x < 0x1_0000_0000_0000_0000

  /** 64-bit addition and subtraction in a release build: they wrap. */
  function Plus(a: u64, b: u64): u64 {
    if a + b < U64 then a + b else a + b - U64
  }

  function Minus(a: u64, b: u64): u64 {
    if b <= a then a - b else a + U64 - b
  }

  datatype Region = Region(addr: u64, len: u64) {
    /** The true end of the range. */
    function End(): nat { addr + len }

    /** The end as the machine computes it. */
    function Top(): u64 { Plus(addr, len) }
  }

  predicate In(x: nat, r: Region) {
    r.addr <= x < r.End()
  }

  /** Is address x free? */
  predicate Covers(free: seq<Region>, x: nat) {
    exists i :: 0 <= i < |free| && In(x, free[i])
  }

  predicate Apart(r: Region, s: Region) {
    r.End() <= s.addr || s.End() <= r.addr
  }

  predicate Inside(r: Region, e: Region) {
    e.addr <= r.addr && r.End() <= e.End()
  }

  predicate Touches(r: Region, s: Region) {
    r.End() == s.addr || s.End() == r.addr
  }

  /** Do the computed ends meet? */
  predicate Meets(r: Region, s: Region) {
    r.Top() == s.addr || s.Top() == r.addr
  }

  predicate PageRange(r: Region) {
    r.len > 0 && r.addr % PAGE == 0 && r.len % PAGE == 0
  }

  predicate Sized(free: seq<Region>) {
    forall i :: 0 <= i < |free| ==> PageRange(free[i])
  }

  predicate Disjoint(free: seq<Region>) {
    forall i, j :: 0 <= i < j < |free| ==> Apart(free[i], free[j])
  }

  predicate Coalesced(free: seq<Region>) {
    forall i, j :: 0 <= i < j < |free| ==> !Touches(free[i], free[j])
  }

  /** Whole pages, pairwise disjoint and maximally merged. */
  predicate Tidy(free: seq<Region>) {
    Sized(free) && Disjoint(free) && Coalesced(free)
  }

  /** No entry's end wraps. */
  predicate Below(free: seq<Region>) {
    forall i :: 0 <= i < |free| ==> free[i].End() < U64
  }

  predicate ApartFromAll(free: seq<Region>, r: Region) {
    forall i :: 0 <= i < |free| ==> Apart(free[i], r)
  }

  function Without(free: seq<Region>, i: nat): seq<Region>
    requires i < |free|
  {
    free[..i] + free[i + 1..]
  }

  // ---- the set of free addresses ----

  lemma CoversWithout(free: seq<Region>, i: nat, x: nat)
    requires i < |free|
    ensures Covers(free, x) <==> In(x, free[i]) || Covers(Without(free, i), x)
  {
    var w := Without(free, i);
    if Covers(free, x) {
      var k :| 0 <= k < |free| && In(x, free[k]);
      if k < i { assert w[k] == free[k]; } else if k > i { assert w[k - 1] == free[k]; }
    }
    if Covers(w, x) {
      var k :| 0 <= k < |w| && In(x, w[k]);
      assert w[k] == free[if k < i then k else k + 1];
    }
  }

  lemma CoversUpdate(free: seq<Region>, i: nat, m: Region, x: nat)
    requires i < |free|
    ensures Covers(free[i := m], x) <==> In(x, m) || Covers(Without(free, i), x)
  {
    CoversWithout(free[i := m], i, x);
    assert Without(free[i := m], i) == Without(free, i);
  }

  lemma CoversAppend(free: seq<Region>, more: seq<Region>, x: nat)
    ensures Covers(free + more, x) <==> Covers(free, x) || Covers(more, x)
  {
    var s := free + more;
    if Covers(free, x) { var k :| 0 <= k < |free| && In(x, free[k]); assert s[k] == free[k]; }
    if Covers(more, x) { var k :| 0 <= k < |more| && In(x, more[k]); assert s[|free| + k] == more[k]; }
  }

  lemma CoversOne(r: Region, x: nat)
    ensures Covers([r], x) <==> In(x, r)
  {
    assert In(x, r) ==> In(x, [r][0]);
  }

  // ---- free_regions_add ----

  /** The first entry from index `from` on, other than `skip`, that borders r. */
  function FirstMeet(free: seq<Region>, r: Region, skip: Option<nat>, from: nat): (o: Option<nat>)
    requires from <= |free|
    ensures o.Some? ==> from <= o.value < |free| && Meets(free[o.value], r) && skip != Some(o.value)
    ensures o == None ==> forall j :: from <= j < |free| && skip != Some(j) ==> !Meets(free[j], r)
    decreases |free| - from
  {
    if from == |free| then None
    else if skip != Some(from) && Meets(free[from], r) then Some(from)
    else FirstMeet(free, r, skip, from + 1)
  }

  function Join(e: Region, r: Region): Region {
    Region(if e.Top() == r.addr then e.addr else r.addr, Plus(e.len, r.len))
  }

  /** The second merge: the hull of a region and a neighbour. */
  function Hull(o: Region, m: Region): Region {
    if o.addr < m.addr then Region(o.addr, Minus(m.Top(), o.addr)) else Region(m.addr, Minus(o.Top(), m.addr))
  }

  predicate NonEmpty(free: seq<Region>) {
    forall k :: 0 <= k < |free| ==> free[k].len > 0
  }

  /** The list after its entry i was extended: merged with one more neighbour if there is one. */
  function Settle(free: seq<Region>, i: nat): seq<Region>
    requires i < |free|
  {
    var second := FirstMeet(free, free[i], Some(i), 0);
    if second == None then free else Fuse(free, i, second.value)
  }

  function Fuse(free: seq<Region>, i: nat, j: nat): seq<Region>
    requires i < |free| && j < |free| && i != j
  {
    Without(free, j)[if j < i then i - 1 else i := Hull(free[j], free[i])]
  }

  function Add(free: seq<Region>, r: Region): seq<Region> {
    var first := FirstMeet(free, r, None, 0);
    if first == None then free + [r]
    else Settle(free[first.value := Join(free[first.value], r)], first.value)
  }

  lemma FuseCovers(free: seq<Region>, i: nat, j: nat, x: nat)
    requires i < |free| && j < |free| && i != j && Meets(free[j], free[i]) && NonEmpty(free) && Below(free)
    ensures Covers(Fuse(free, i, j), x) <==> Covers(free, x)
  {
    var w, i' := Without(free, j), if j < i then i - 1 else i;
    assert w[i'] == free[i];
    CoversWithout(free, j, x);
    CoversWithout(w, i', x);
    CoversUpdate(w, i', Hull(free[j], free[i]), x);
  }

  /** Adding a range that does not wrap is set union, even where it overlaps the list. */
  lemma AddIsUnion(free: seq<Region>, r: Region, x: nat)
    requires NonEmpty(free) && Below(free) && r.len > 0 && r.End() < U64
    ensures Covers(Add(free, r), x) <==> Covers(free, x) || In(x, r)
  {
    var first := FirstMeet(free, r, None, 0);
    if first == None {
      CoversAppend(free, [r], x);
      CoversOne(r, x);
    } else {
      var i := first.value;
      var f := free[i := Join(free[i], r)];
      CoversWithout(free, i, x);
      CoversUpdate(free, i, Join(free[i], r), x);
      var second := FirstMeet(f, f[i], Some(i), 0);
      if second.Some? { FuseCovers(f, i, second.value, x); }
    }
  }

  /** Which entry of the original list an entry of the fused list is; None for the hull. */
  function Origin(i: nat, j: nat, k: nat): Option<nat> {
    if k == (if j < i then i - 1 else i) then None else Some(if k < j then k else k + 1)
  }

  lemma FuseAt(f: seq<Region>, i: nat, j: nat, k: nat)
    requires i < |f| && j < |f| && i != j && k < |f| - 1
    ensures var o := Origin(i, j, k);
      && |Fuse(f, i, j)| == |f| - 1
      && Fuse(f, i, j)[k] == (if o == None then Hull(f[j], f[i]) else f[o.value])
      && (o.Some? ==> o.value < |f| && o.value != i && o.value != j)
  {
  }

  lemma AlignedSum(a: nat, b: nat)
    requires a % PAGE == 0 && b % PAGE == 0
    ensures (a + b) % PAGE == 0 && (a >= b ==> (a - b) % PAGE == 0)
  {
  }

  lemma JoinPages(e: Region, r: Region)
    requires PageRange(e) && PageRange(r) && Meets(e, r) && e.End() < U64 && r.End() < U64
    ensures PageRange(Join(e, r)) && Join(e, r).End() < U64
  {
    AlignedSum(e.len, r.len);
  }

  lemma HullPages(o: Region, m: Region)
    requires PageRange(o) && PageRange(m) && Meets(o, m) && o.End() < U64 && m.End() < U64
    ensures PageRange(Hull(o, m))
  {
    AlignedSum(o.len, m.len);
    assert Hull(o, m).len == o.len + m.len;
  }

  lemma SizedAdd(free: seq<Region>, r: Region)
    requires Sized(free) && Below(free) && PageRange(r) && r.End() < U64
    ensures Sized(Add(free, r))
  {
    var first := FirstMeet(free, r, None, 0);
    if first.Some? {
      var i := first.value;
      var f := free[i := Join(free[i], r)];
      JoinPages(free[i], r);
      var second := FirstMeet(f, f[i], Some(i), 0);
      if second.Some? {
        HullPages(f[second.value], f[i]);
        forall k | 0 <= k < |f| - 1 ensures PageRange(Fuse(f, i, second.value)[k]) { FuseAt(f, i, second.value, k); }
      }
    }
  }

  /** Extending entry i by a range clear of the list: everything stays disjoint, and only the far
      end of the range can border another entry. */
  lemma JoinClear(free: seq<Region>, r: Region, i: nat, k: nat)
    requires Tidy(free) && Below(free) && r.len > 0 && r.End() < U64 && ApartFromAll(free, r)
    requires i < |free| && Touches(free[i], r)
    requires k < |free| && k != i
    ensures Apart(free[k], Join(free[i], r)) && !Touches(free[k], free[i])
    ensures Touches(free[k], Join(free[i], r)) ==> Touches(free[k], r)
  {
    assert Apart(free[k], r);
    if k < i { assert Apart(free[k], free[i]) && !Touches(free[k], free[i]); }
    else { assert Apart(free[i], free[k]) && !Touches(free[i], free[k]); }
  }

  lemma PairClear(free: seq<Region>, a: nat, b: nat)
    requires Tidy(free) && a < |free| && b < |free| && a != b
    ensures Apart(free[a], free[b]) && !Touches(free[a], free[b])
  {
    if a < b { assert Apart(free[a], free[b]) && !Touches(free[a], free[b]); }
    else { assert Apart(free[b], free[a]) && !Touches(free[b], free[a]); }
  }

  /** A third entry clear of both merged entries does not border their hull: the range joins its
      two neighbours end to end. */
  lemma FarEnds(e: Region, r: Region, o: Region, k: Region)
    requires e.len > 0 && r.len > 0 && o.len > 0 && k.len > 0
    requires e.End() < U64 && r.End() < U64 && o.End() < U64
    requires Touches(e, r) && Touches(o, Join(e, r)) && !Touches(o, e) && Touches(o, r)
    requires Apart(k, Join(e, r)) && Apart(k, o) && !Touches(k, e) && !Touches(k, o)
    ensures Apart(k, Hull(o, Join(e, r))) && !Touches(k, Hull(o, Join(e, r)))
  {
  }

  lemma AddKeepsTidy(free: seq<Region>, r: Region)
    requires Tidy(free) && Below(free) && PageRange(r) && r.End() < U64 && ApartFromAll(free, r)
    ensures Tidy(Add(free, r))
  {
    SizedAdd(free, r);
    var first := FirstMeet(free, r, None, 0);
    if first.Some? {
      var i := first.value;
      var f := free[i := Join(free[i], r)];
      var second := FirstMeet(f, f[i], Some(i), 0);
      if second.Some? { FuseTidy(free, r, i, second.value); } else {
        assert forall k :: 0 <= k < |free| && k != i ==> f[k] == free[k];
        JoinTidy(free, r, i);
      }
    }
  }

  lemma JoinTidy(free: seq<Region>, r: Region, i: nat)
    requires Tidy(free) && Below(free) && PageRange(r) && r.End() < U64 && ApartFromAll(free, r)
    requires i < |free| && Touches(free[i], r)
    requires forall k :: 0 <= k < |free| && k != i ==> !Meets(free[k], Join(free[i], r))
    ensures var f := free[i := Join(free[i], r)]; Disjoint(f) && Coalesced(f)
  {
    var f := free[i := Join(free[i], r)];
    forall a, b | 0 <= a < b < |f| ensures Apart(f[a], f[b]) && !Touches(f[a], f[b]) {
      if a != i && b != i { PairClear(free, a, b); } else { JoinClear(free, r, i, if a == i then b else a); }
    }
  }

  lemma FuseTidy(free: seq<Region>, r: Region, i: nat, j: nat)
    requires Tidy(free) && Below(free) && PageRange(r) && r.End() < U64 && ApartFromAll(free, r)
    requires i < |free| && j < |free| && i != j && Touches(free[i], r) && Touches(free[j], Join(free[i], r))
    ensures var f := free[i := Join(free[i], r)]; Disjoint(Fuse(f, i, j)) && Coalesced(Fuse(f, i, j))
  {
    var f := free[i := Join(free[i], r)];
    var g := Fuse(f, i, j);
    forall a, b | 0 <= a < b < |g| ensures Apart(g[a], g[b]) && !Touches(g[a], g[b]) {
      FuseAt(f, i, j, a);
      FuseAt(f, i, j, b);
      var x, y := Origin(i, j, a), Origin(i, j, b);
      if x.Some? && y.Some? { PairClear(free, x.value, y.value); }
      else { HullPair(free, r, i, j, if x.Some? then x.value else y.value); }
    }
  }

  lemma HullPair(free: seq<Region>, r: Region, i: nat, j: nat, k: nat)
    requires Tidy(free) && Below(free) && PageRange(r) && r.End() < U64 && ApartFromAll(free, r)
    requires i < |free| && j < |free| && i != j && Touches(free[i], r) && Touches(free[j], Join(free[i], r))
    requires k < |free| && k != i && k != j
    ensures Apart(free[k], Hull(free[j], Join(free[i], r))) && !Touches(free[k], Hull(free[j], Join(free[i], r)))
  {
    JoinClear(free, r, i, k);
    JoinClear(free, r, i, j);
    PairClear(free, k, j);
    PairClear(free, k, i);
    FarEnds(free[i], r, free[j], free[k]);
  }

  /** Releasing a range that overlaps a free one is never repaired: the list overlaps itself. */
  lemma AddOverlaps(free: seq<Region>, r: Region, k: nat)
    requires Tidy(free) && Below(free) && r.len > 0 && r.End() < U64 && k < |free| && !Apart(free[k], r)
    ensures !Disjoint(Add(free, r))
  {
    var first := FirstMeet(free, r, None, 0);
    if first == None {
      var s := free + [r];
      assert s[k] == free[k] && s[|free|] == r;
    } else {
      var i := first.value;
      var f := free[i := Join(free[i], r)];
      assert k != i && !Apart(f[k], f[i]);
      var second := FirstMeet(f, f[i], Some(i), 0);
      if second == None {
        assert !Apart(f[if i < k then i else k], f[if i < k then k else i]);
      } else {
        FuseOverlaps(f, i, second.value, k);
      }
    }
  }

  lemma FuseOverlaps(f: seq<Region>, i: nat, j: nat, k: nat)
    requires i < |f| && j < |f| && k < |f| && i != j && k != i && NonEmpty(f) && Below(f)
    requires Meets(f[j], f[i]) && !Apart(f[k], f[i])
    ensures !Disjoint(Fuse(f, i, j))
  {
    assert k != j;
    var a, b := if k < j then k else k - 1, if j < i then i - 1 else i;
    FuseAt(f, i, j, a);
    FuseAt(f, i, j, b);
    var g := Fuse(f, i, j);
    assert g[a] == f[k] && g[b] == Hull(f[j], f[i]) && !Apart(g[a], g[b]);
    assert !Apart(g[if a < b then a else b], g[if a < b then b else a]);
  }

  /** Exactly when a release keeps the list disjoint: the range was not free before. */
  lemma AddDisjointIff(free: seq<Region>, r: Region)
    requires Tidy(free) && Below(free) && PageRange(r) && r.End() < U64
    ensures Disjoint(Add(free, r)) <==> ApartFromAll(free, r)
  {
    if ApartFromAll(free, r) {
      AddKeepsTidy(free, r);
    } else {
      var k :| 0 <= k < |free| && !Apart(free[k], r);
      AddOverlaps(free, r, k);
    }
  }

  // ---- adding a range whose end wraps ----

  /** The entry does not lie in the address space, or is empty. */
  predicate Broken(e: Region) {
    e.len == 0 || e.End() >= U64
  }

  /** A range whose end wraps joined to an entry: either the result is broken, or it is a part of
      the entry, cut short, that no other entry meets. */
  lemma WrappedJoin(free: seq<Region>, r: Region, i: nat)
    requires Tidy(free) && Below(free) && PageRange(r) && r.End() >= U64
    requires i < |free| && Meets(free[i], r)
    ensures var j := Join(free[i], r);
      Broken(j) || (Inside(j, free[i]) && j.len < free[i].len && forall k :: 0 <= k < |free| && k != i ==> !Meets(free[k], j))
  {
    var j := Join(free[i], r);
    if !Broken(j) {
      forall k | 0 <= k < |free| && k != i ensures !Meets(free[k], j) { PairClear(free, k, i); }
    }
  }

  /** A second merge does not repair a broken entry. */
  lemma WrappedHull(free: seq<Region>, r: Region, i: nat, k: nat)
    requires Tidy(free) && Below(free) && PageRange(r) && r.End() >= U64
    requires i < |free| && k < |free| && k != i && Meets(free[i], r) && Broken(Join(free[i], r))
    requires Meets(free[k], Join(free[i], r))
    ensures Broken(Hull(free[k], Join(free[i], r)))
  {
    PairClear(free, k, i);
  }

  lemma ShortUncovers(free: seq<Region>, i: nat, j: Region) returns (x: nat)
    requires Tidy(free) && i < |free| && Inside(j, free[i]) && j.len < free[i].len
    ensures Covers(free, x) && !Covers(free[i := j], x)
  {
    var e := free[i];
    x := if j.addr == e.addr then e.End() - 1 else e.addr;
    assert In(x, e) && !In(x, j);
    var f := free[i := j];
    forall k | 0 <= k < |f| ensures !In(x, f[k]) {
      if k != i { PairClear(free, k, i); }
    }
  }

  ghost predicate Damaged(free: seq<Region>, after: seq<Region>) {
    || (exists k :: 0 <= k < |after| && Broken(after[k]))
    || (exists x: nat :: Covers(free, x) && !Covers(after, x))
  }

  /** Adding a range whose end wraps always damages the list: it then holds an empty entry or one
      that runs past the address space, or it has lost free addresses. */
  lemma WrappedAdd(free: seq<Region>, r: Region)
    requires Tidy(free) && Below(free) && PageRange(r) && r.End() >= U64
    ensures Damaged(free, Add(free, r))
  {
    var first := FirstMeet(free, r, None, 0);
    if first == None {
      assert Broken(Add(free, r)[|free|]);
    } else {
      WrappedSettle(free, r, first.value);
    }
  }

  lemma WrappedSettle(free: seq<Region>, r: Region, i: nat)
    requires Tidy(free) && Below(free) && PageRange(r) && r.End() >= U64
    requires i < |free| && Meets(free[i], r)
    ensures Damaged(free, Settle(free[i := Join(free[i], r)], i))
  {
    var j := Join(free[i], r);
    var f := free[i := j];
    WrappedJoin(free, r, i);
    var second := FirstMeet(f, j, Some(i), 0);
    hide Tidy, Join, Meets, Covers;
    if second.Some? {
      assert f[second.value] == free[second.value];
      WrappedHull(free, r, i, second.value);
      var at := if second.value < i then i - 1 else i;
      FuseAt(f, i, second.value, at);
      assert Broken(Fuse(f, i, second.value)[at]);
    } else if Broken(j) {
      assert Broken(f[i]);
    } else {
      var x := ShortUncovers(free, i, j);
    }
  }

  /** Adding an empty range should change nothing, but it leaves an empty entry behind: the list
      stays as it was exactly when the range borders an entry. */
  lemma EmptyAdd(free: seq<Region>, r: Region)
    requires Tidy(free) && Below(free) && r.len == 0
    ensures var borders := exists i :: 0 <= i < |free| && Touches(free[i], r);
      Add(free, r) == (if borders then free else free + [r]) && (Tidy(Add(free, r)) <==> borders)
  {
    var first := FirstMeet(free, r, None, 0);
    if first == None {
      assert !PageRange(Add(free, r)[|free|]);
    } else {
      var i := first.value;
      assert Touches(free[i], r);
      assert free[i := Join(free[i], r)] == free;
      forall k | 0 <= k < |free| && k != i ensures !Meets(free[k], free[i]) { PairClear(free, k, i); }
    }
  }

  // ---- free_regions_take ----

  /** The scan starts from an excess of u64::MAX and only takes what is below it. */
  predicate Fits(e: Region, len: u64) {
    len <= e.len && e.len - len < U64 - 1
  }

  predicate NoneFits(free: seq<Region>, len: u64) {
    forall j :: 0 <= j < |free| ==> !Fits(free[j], len)
  }

  /** Entry i is the first among the smallest entries that fit. */
  predicate BestFit(free: seq<Region>, len: u64, i: nat) {
    && i < |free| && Fits(free[i], len)
    && (forall j :: 0 <= j < |free| && Fits(free[j], len) ==> free[i].len <= free[j].len)
    && (forall j :: 0 <= j < i && Fits(free[j], len) ==> free[i].len < free[j].len)
  }

  function SwapRemove(free: seq<Region>, i: nat): seq<Region>
    requires i < |free|
  {
    free[i := free[|free| - 1]][..|free| - 1]
  }

  function TakeAt(free: seq<Region>, i: nat, len: u64): seq<Region>
    requires i < |free| && len <= free[i].len
  {
    if free[i].len == len then SwapRemove(free, i)
    else free[i := Region(Plus(free[i].addr, len), free[i].len - len)]
  }

  lemma CoversSwapRemove(free: seq<Region>, i: nat, x: nat)
    requires i < |free|
    ensures Covers(free, x) <==> In(x, free[i]) || Covers(SwapRemove(free, i), x)
  {
    var s, n := SwapRemove(free, i), |free| - 1;
    if Covers(free, x) {
      var k :| 0 <= k < |free| && In(x, free[k]);
      if k != i { assert s[if k == n then i else k] == free[k]; }
    }
    if Covers(s, x) {
      var k :| 0 <= k < |s| && In(x, s[k]);
      assert s[k] == free[if k == i then n else k];
    }
  }

  lemma SwapRemoveApart(free: seq<Region>, i: nat, x: nat)
    requires Disjoint(free) && i < |free|
    ensures Covers(SwapRemove(free, i), x) ==> !In(x, free[i])
  {
    var s := SwapRemove(free, i);
    forall k | 0 <= k < |s| ensures Apart(s[k], free[i]) {
      var o := if k == i then |free| - 1 else k;
      assert Apart(free[if o < i then o else i], free[if o < i then i else o]);
    }
  }

  /** Taking the front of an entry removes exactly the taken range from the free addresses. */
  lemma TakeIsDifference(free: seq<Region>, i: nat, len: u64, x: nat)
    requires Disjoint(free) && Below(free) && NonEmpty(free) && i < |free| && len <= free[i].len
    ensures Covers(TakeAt(free, i, len), x) <==> Covers(free, x) && !In(x, Region(free[i].addr, len))
  {
    CoversWithout(free, i, x);
    if Covers(Without(free, i), x) {
      var w := Without(free, i);
      var k :| 0 <= k < |w| && In(x, w[k]);
      assert w[k] == free[if k < i then k else k + 1];
      assert !In(x, free[i]);
    }
    if free[i].len == len {
      CoversSwapRemove(free, i, x);
      SwapRemoveApart(free, i, x);
    } else {
      CoversUpdate(free, i, Region(Plus(free[i].addr, len), free[i].len - len), x);
    }
  }

  lemma TakeKeepsTidy(free: seq<Region>, i: nat, len: u64)
    requires Tidy(free) && Below(free) && i < |free| && len <= free[i].len && len % PAGE == 0
    ensures Tidy(TakeAt(free, i, len))
  {
    var s := TakeAt(free, i, len);
    if free[i].len == len {
      forall a, b | 0 <= a < b < |s| ensures Apart(s[a], s[b]) && !Touches(s[a], s[b]) {
        PairClear(free, if a == i then |free| - 1 else a, if b == i then |free| - 1 else b);
      }
    } else {
      forall k | 0 <= k < |free| && k != i ensures Apart(free[k], s[i]) && !Touches(free[k], s[i]) {
        PairClear(free, k, i);
      }
    }
  }

  // ---- free_regions_drop_range ----

  /** The parts of r outside [lo, hi), in the order the source appends them. */
  function Cut(r: Region, lo: u64, hi: u64): seq<Region> {
    (if r.addr < lo then [Region(r.addr, lo - r.addr)] else [])
    + (if r.Top() > hi then [Region(hi, r.Top() - hi)] else [])
  }

  predicate Outside(r: Region, lo: u64, hi: u64) {
    r.Top() <= lo || r.addr >= hi
  }

  /** Entries among the first n that do not meet the range. */
  function Kept(free: seq<Region>, lo: u64, hi: u64, n: nat): seq<Region>
    requires n <= |free|
  {
    if n == 0 then []
    else Kept(free, lo, hi, n - 1) + if Outside(free[n - 1], lo, hi) then [free[n - 1]] else []
  }

  /** What is left of the others. */
  function Pieces(free: seq<Region>, lo: u64, hi: u64, n: nat): seq<Region>
    requires n <= |free|
  {
    if n == 0 then []
    else Pieces(free, lo, hi, n - 1) + if Outside(free[n - 1], lo, hi) then [] else Cut(free[n - 1], lo, hi)
  }

  function Drop(free: seq<Region>, lo: u64, hi: u64): seq<Region> {
    Kept(free, lo, hi, |free|) + Pieces(free, lo, hi, |free|)
  }

  lemma DropNone(free: seq<Region>, lo: u64, hi: u64)
    ensures Kept(free, lo, hi, 0) == [] && Pieces(free, lo, hi, 0) == []
  {
  }

  lemma DropOne(free: seq<Region>, lo: u64, hi: u64, n: nat)
    requires n < |free|
    ensures var out, k, p := Outside(free[n], lo, hi), Kept(free, lo, hi, n), Pieces(free, lo, hi, n);
      && Kept(free, lo, hi, n + 1) == (if out then k + [free[n]] else k)
      && Pieces(free, lo, hi, n + 1) == (if out then p else p + Cut(free[n], lo, hi))
  {
  }

  lemma CutCovers(r: Region, lo: u64, hi: u64, x: nat)
    requires lo <= hi && !Outside(r, lo, hi) && r.End() < U64
    ensures Covers(Cut(r, lo, hi), x) <==> In(x, r) && !(lo <= x < hi)
  {
    var head := if r.addr < lo then [Region(r.addr, lo - r.addr)] else [];
    var tail := if r.End() > hi then [Region(hi, r.End() - hi)] else [];
    CoversAppend(head, tail, x);
    if r.addr < lo { CoversOne(head[0], x); }
    if r.End() > hi { CoversOne(tail[0], x); }
  }

  predicate CoversFirst(free: seq<Region>, n: nat, x: nat)
    requires n <= |free|
  {
    exists i :: 0 <= i < n && In(x, free[i])
  }

  lemma CoversNext(free: seq<Region>, n: nat, x: nat)
    requires n < |free|
    ensures CoversFirst(free, n + 1, x) <==> CoversFirst(free, n, x) || In(x, free[n])
  {
  }

  lemma CoversNothing(free: seq<Region>, x: nat)
    ensures !Covers([], x) && !CoversFirst(free, 0, x)
  {
  }

  lemma {:induction false} DropCovers(free: seq<Region>, lo: u64, hi: u64, n: nat, x: nat)
    requires lo <= hi && n <= |free| && Below(free)
    ensures Covers(Kept(free, lo, hi, n), x) || Covers(Pieces(free, lo, hi, n), x) <==> CoversFirst(free, n, x) && !(lo <= x < hi)
  {
    hide Covers, CoversFirst, Cut, Kept, Pieces;
    if n == 0 {
      DropNone(free, lo, hi);
      CoversNothing(free, x);
    } else {
      var e, k, p := free[n - 1], Kept(free, lo, hi, n - 1), Pieces(free, lo, hi, n - 1);
      DropCovers(free, lo, hi, n - 1, x);
      DropOne(free, lo, hi, n - 1);
      CoversNext(free, n - 1, x);
      if Outside(e, lo, hi) {
        CoversAppend(k, [e], x);
        CoversOne(e, x);
      } else {
        CoversAppend(p, Cut(e, lo, hi), x);
        CutCovers(e, lo, hi, x);
      }
    }
  }

  /** Dropping a range is set difference. */
  lemma DropIsDifference(free: seq<Region>, lo: u64, hi: u64, x: nat)
    requires lo <= hi && Below(free)
    ensures Covers(Drop(free, lo, hi), x) <==> Covers(free, x) && !(lo <= x < hi)
  {
    DropCovers(free, lo, hi, |free|, x);
    CoversAppend(Kept(free, lo, hi, |free|), Pieces(free, lo, hi, |free|), x);
  }

  predicate InsideSome(free: seq<Region>, n: nat, r: Region)
    requires n <= |free|
  {
    exists i :: 0 <= i < n && Inside(r, free[i])
  }

  /** Pieces of different entries are as clear of each other as the entries. */
  lemma InsideClear(free: seq<Region>, n: nat, r: Region, s: Region)
    requires Tidy(free) && n < |free| && r.len > 0 && s.len > 0 && InsideSome(free, n, r) && Inside(s, free[n])
    ensures Apart(r, s) && !Touches(r, s)
  {
    var i :| 0 <= i < n && Inside(r, free[i]);
    PairClear(free, i, n);
  }

  /** Inserting regions clear of all the others, and of each other, keeps a list tidy. */
  lemma InsertTidy(k: seq<Region>, m: seq<Region>, p: seq<Region>)
    requires Tidy(k + p) && Tidy(m)
    requires forall a, b :: 0 <= a < |k + p| && 0 <= b < |m| ==> Apart((k + p)[a], m[b]) && !Touches((k + p)[a], m[b])
    ensures Tidy(k + m + p)
  {
    var s := k + m + p;
    forall a | 0 <= a < |s| ensures PageRange(s[a]) { Inserted(k, m, p, a); }
    forall a, b | 0 <= a < b < |s| ensures Apart(s[a], s[b]) && !Touches(s[a], s[b]) {
      Inserted(k, m, p, a);
      Inserted(k, m, p, b);
    }
  }

  lemma Inserted(k: seq<Region>, m: seq<Region>, p: seq<Region>, a: nat)
    requires a < |k + m + p|
    ensures (k + m + p)[a] ==
      if a < |k| then (k + p)[a] else if a < |k| + |m| then m[a - |k|] else (k + p)[a - |m|]
  {
  }

  lemma CutTidy(e: Region, lo: u64, hi: u64)
    requires PageRange(e) && e.End() < U64 && lo < hi && lo % PAGE == 0 && hi % PAGE == 0 && !Outside(e, lo, hi)
    ensures Tidy(Cut(e, lo, hi))
  {
    AlignedSum(lo, e.addr);
    AlignedSum(e.addr, e.len);
    AlignedSum(e.End(), hi);
  }

  /** Whatever is left of an entry that meets the range is whole pages. */
  predicate CutsTidy(free: seq<Region>, lo: u64, hi: u64) {
    forall i :: 0 <= i < |free| && !Outside(free[i], lo, hi) ==> Tidy(Cut(free[i], lo, hi))
  }

  lemma CutInside(e: Region, lo: u64, hi: u64)
    requires lo <= hi && !Outside(e, lo, hi) && e.End() < U64
    ensures forall k :: 0 <= k < |Cut(e, lo, hi)| ==> Inside(Cut(e, lo, hi)[k], e)
  {
  }

  lemma AllInsideClear(free: seq<Region>, n: nat, s: seq<Region>, m: seq<Region>)
    requires Tidy(free) && n < |free| && Tidy(s) && Tidy(m)
    requires forall a :: 0 <= a < |s| ==> InsideSome(free, n, s[a])
    requires forall b :: 0 <= b < |m| ==> Inside(m[b], free[n])
    ensures forall a, b :: 0 <= a < |s| && 0 <= b < |m| ==> Apart(s[a], m[b]) && !Touches(s[a], m[b])
  {
    forall a, b | 0 <= a < |s| && 0 <= b < |m| ensures Apart(s[a], m[b]) && !Touches(s[a], m[b]) {
      InsideClear(free, n, s[a], m[b]);
    }
  }

  /** A tidy list whose entries are parts of the first n entries of `free`. */
  predicate Remains(free: seq<Region>, n: nat, s: seq<Region>)
    requires n <= |free|
  {
    Tidy(s) && forall a :: 0 <= a < |s| ==> InsideSome(free, n, s[a])
  }

  /** What entry i contributes to the list after the drop. */
  function Part(free: seq<Region>, lo: u64, hi: u64, i: nat): seq<Region>
    requires i < |free|
  {
    if Outside(free[i], lo, hi) then [free[i]] else Cut(free[i], lo, hi)
  }

  lemma PartTidy(free: seq<Region>, lo: u64, hi: u64, i: nat)
    requires Tidy(free) && Below(free) && lo <= hi && CutsTidy(free, lo, hi) && i < |free|
    ensures Tidy(Part(free, lo, hi, i)) && forall b :: 0 <= b < |Part(free, lo, hi, i)| ==> Inside(Part(free, lo, hi, i)[b], free[i])
  {
    if !Outside(free[i], lo, hi) { CutInside(free[i], lo, hi); }
  }

  lemma NothingRemains(free: seq<Region>)
    ensures Remains(free, 0, [] + [])
  {
  }

  lemma {:induction false} DropTidyUpTo(free: seq<Region>, lo: u64, hi: u64, n: nat)
    requires Tidy(free) && Below(free) && lo <= hi && CutsTidy(free, lo, hi) && n <= |free|
    ensures Remains(free, n, Kept(free, lo, hi, n) + Pieces(free, lo, hi, n))
  {
    hide *;
    if n == 0 {
      DropNone(free, lo, hi);
      NothingRemains(free);
    } else {
      DropTidyUpTo(free, lo, hi, n - 1);
      PartTidy(free, lo, hi, n - 1);
      DropShape(free, lo, hi, n);
      PutTidy(free, n, Kept(free, lo, hi, n - 1), Part(free, lo, hi, n - 1), Pieces(free, lo, hi, n - 1));
    }
  }

  lemma PutTidy(free: seq<Region>, n: nat, k: seq<Region>, m: seq<Region>, p: seq<Region>)
    requires Tidy(free) && 0 < n <= |free| && Remains(free, n - 1, k + p) && Tidy(m)
    requires forall b :: 0 <= b < |m| ==> Inside(m[b], free[n - 1])
    ensures Remains(free, n, k + m + p) && Remains(free, n, k + p + m)
  {
    hide Tidy, InsideSome, Inside, Apart, Touches;
    AllInsideClear(free, n - 1, k + p, m);
    InsertTidy(k, m, p);
    assert (k + p) + [] == k + p && k + p + m + [] == k + p + m;
    InsertTidy(k + p, m, []);
    DropInside(free, n, k, m, p);
  }

  /** The n-th entry's contribution goes between the kept entries and the pieces, or at the end. */
  lemma DropShape(free: seq<Region>, lo: u64, hi: u64, n: nat)
    requires 0 < n <= |free|
    ensures var k, p, m := Kept(free, lo, hi, n - 1), Pieces(free, lo, hi, n - 1), Part(free, lo, hi, n - 1);
      var s := Kept(free, lo, hi, n) + Pieces(free, lo, hi, n);
      s == k + m + p || s == k + p + m
  {
  }

  lemma DropInside(free: seq<Region>, n: nat, k: seq<Region>, m: seq<Region>, p: seq<Region>)
    requires 0 < n <= |free|
    requires forall a :: 0 <= a < |k + p| ==> InsideSome(free, n - 1, (k + p)[a])
    requires forall b :: 0 <= b < |m| ==> Inside(m[b], free[n - 1])
    ensures forall a :: 0 <= a < |k + m + p| ==> InsideSome(free, n, (k + m + p)[a])
    ensures forall a :: 0 <= a < |k + p + m| ==> InsideSome(free, n, (k + p + m)[a])
  {
    hide InsideSome, Inside;
    forall a | 0 <= a < |k + p| ensures InsideSome(free, n, (k + p)[a]) { InsideMore(free, n, (k + p)[a]); }
    forall b | 0 <= b < |m| ensures InsideSome(free, n, m[b]) { InsideMore(free, n, m[b]); }
    forall a | 0 <= a < |k + m + p| ensures InsideSome(free, n, (k + m + p)[a]) { Inserted(k, m, p, a); }
  }

  lemma InsideMore(free: seq<Region>, n: nat, r: Region)
    requires 0 < n <= |free| && (InsideSome(free, n - 1, r) || Inside(r, free[n - 1]))
    ensures InsideSome(free, n, r)
  {
  }

  predicate Splits(e: Region, x: nat) {
    e.addr < x < e.End()
  }

  predicate NoneSplits(free: seq<Region>, x: nat) {
    forall i :: 0 <= i < |free| ==> !Splits(free[i], x)
  }

  /** What is left of an entry ends up in the list in one piece. */
  lemma {:induction false} PiecesHold(free: seq<Region>, lo: u64, hi: u64, n: nat, i: nat) returns (before: seq<Region>, after: seq<Region>)
    requires i < n <= |free| && !Outside(free[i], lo, hi)
    ensures Pieces(free, lo, hi, n) == before + Cut(free[i], lo, hi) + after
  {
    hide Cut, Outside;
    if i == n - 1 {
      before, after := Pieces(free, lo, hi, n - 1), [];
    } else {
      before, after := PiecesHold(free, lo, hi, n - 1, i);
      after := after + if Outside(free[n - 1], lo, hi) then [] else Cut(free[n - 1], lo, hi);
    }
  }

  lemma TidyPart(before: seq<Region>, s: seq<Region>, after: seq<Region>)
    requires Tidy(before + s + after)
    ensures Tidy(s)
  {
    var t, n := before + s + after, |before|;
    assert forall a :: 0 <= a < |s| ==> s[a] == t[n + a];
    forall a, b | 0 <= a < b < |s| ensures Apart(s[a], s[b]) && !Touches(s[a], s[b]) { PairClear(t, n + a, n + b); }
  }

  lemma DropTidyIff(free: seq<Region>, lo: u64, hi: u64)
    requires Tidy(free) && Below(free) && lo <= hi
    ensures Tidy(Drop(free, lo, hi)) <==> CutsTidy(free, lo, hi)
  {
    if CutsTidy(free, lo, hi) {
      DropTidyUpTo(free, lo, hi, |free|);
    } else {
      var i :| 0 <= i < |free| && !Outside(free[i], lo, hi) && !Tidy(Cut(free[i], lo, hi));
      if Tidy(Drop(free, lo, hi)) { CutStays(free, lo, hi, i); }
    }
  }

  lemma CutStays(free: seq<Region>, lo: u64, hi: u64, i: nat)
    requires i < |free| && !Outside(free[i], lo, hi) && Tidy(Drop(free, lo, hi))
    ensures Tidy(Cut(free[i], lo, hi))
  {
    hide Tidy, Cut, Pieces, Kept;
    var before, after := PiecesHold(free, lo, hi, |free|, i);
    var k, c := Kept(free, lo, hi, |free|), Cut(free[i], lo, hi);
    assert k + (before + c + after) == (k + before) + c + after;
    TidyPart(k + before, c, after);
  }

  /** Exactly when a cut leaves whole pages: the ends are page boundaries of a non-empty range, or
      the entry straddles neither. */
  lemma CutTidyIff(e: Region, lo: u64, hi: u64)
    requires PageRange(e) && e.End() < U64 && lo <= hi && (hi - lo) % PAGE == 0 && !Outside(e, lo, hi)
    ensures Tidy(Cut(e, lo, hi)) <==> (lo < hi && lo % PAGE == 0) || (!Splits(e, lo) && !Splits(e, hi))
  {
    AlignedSum(e.addr, e.len);
    var c := Cut(e, lo, hi);
    if lo < hi && lo % PAGE == 0 {
      AlignedSum(lo, hi - lo);
      CutTidy(e, lo, hi);
    } else if Splits(e, lo) {
      assert c[0] == Region(e.addr, lo - e.addr);
      if lo == hi {
        assert c[1] == Region(hi, e.Top() - hi) && Touches(c[0], c[1]);
      } else {
        Ragged(e.addr, lo - e.addr);
      }
    } else if Splits(e, hi) {
      assert c[|c| - 1] == Region(hi, e.Top() - hi);
      Ragged(hi - lo, lo);
    }
  }

  lemma Ragged(a: nat, b: nat)
    requires a % PAGE == 0 && (a + b) % PAGE != 0
    ensures b % PAGE != 0
  {
    if b % PAGE == 0 { AlignedSum(a, b); }
  }

  /** Dropping a range of whole length keeps the list tidy exactly when the range is page-aligned
      and not empty, or no entry straddles either end.  An empty range is no exception: it should
      change nothing, but it cuts an entry that straddles it in two. */
  lemma DropTidyExactly(free: seq<Region>, lo: u64, hi: u64)
    requires Tidy(free) && Below(free) && lo <= hi && (hi - lo) % PAGE == 0
    ensures Tidy(Drop(free, lo, hi)) <==> (lo < hi && lo % PAGE == 0) || (NoneSplits(free, lo) && NoneSplits(free, hi))
  {
    DropTidyIff(free, lo, hi);
    forall i | 0 <= i < |free| && !Outside(free[i], lo, hi)
      ensures Tidy(Cut(free[i], lo, hi)) <==> (lo < hi && lo % PAGE == 0) || (!Splits(free[i], lo) && !Splits(free[i], hi))
    {
      CutTidyIff(free[i], lo, hi);
    }
  }
}

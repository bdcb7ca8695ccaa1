/** Descriptors, chains and the free list of a split virtqueue, as values.  The free list is
    threaded through the `next` fields of unused descriptors, the chains of outstanding requests
    through those of the others; together they partition the table. */
module VirtqChains {
  import opened Wrappers

  /** A buffer as the device sees it: address, length, and whether the device writes it. */
  datatype Buf = Buf(addr: nat, len: nat, write: bool)

  /** A descriptor with its flags NEXT, WRITE and INDIRECT. */
  datatype Desc = Desc(addr: nat, len: nat, chained: bool, write: bool, indirect: bool, next: nat)

  /** An outstanding request: its descriptors in order, the buffers it was given, and whether
      those sit in a separate indirect table. */
  datatype Chain = Chain(idx: seq<nat>, bufs: seq<Buf>, indirect: bool)

  function Holding(b: Buf, chained: bool, next: nat): Desc {
    Desc(b.addr, b.len, chained, b.write, false, next)
  }

  predicate NoDup(s: seq<nat>) {
    forall i, j :: 0 <= i < j < |s| ==> s[i] != s[j]
  }

  predicate Below(s: seq<nat>, n: nat) {
    forall i :: 0 <= i < |s| ==> s[i] < n
  }

  // ---- the free list ----

  predicate FreeList(d: seq<Desc>, head: nat, free: seq<nat>) {
    && Below(free, |d|)
    && (free != [] ==> head == free[0])
    && forall k :: 0 <= k < |free| - 1 ==> d[free[k]].next == free[k + 1]
  }

  lemma FreeTail(d: seq<Desc>, d': seq<Desc>, head: nat, head': nat, free: seq<nat>, m: nat)
    requires FreeList(d, head, free) && 0 < m <= |free| && |d'| == |d|
    requires forall k :: m <= k < |free| ==> d'[free[k]] == d[free[k]]
    requires head' == d[free[m - 1]].next
    ensures FreeList(d', head', free[m..])
  {
  }

  lemma FreePrepend(d: seq<Desc>, d': seq<Desc>, head: nat, free: seq<nat>, chain: seq<nat>)
    requires FreeList(d, head, free) && chain != [] && Below(chain, |d|) && |d'| == |d|
    requires forall k :: 0 <= k < |free| ==> d'[free[k]] == d[free[k]]
    requires forall k :: 0 <= k < |chain| - 1 ==> d'[chain[k]].next == chain[k + 1]
    requires d'[chain[|chain| - 1]].next == head
    ensures FreeList(d', chain[0], chain + free)
  {
    var s := chain + free;
    forall k | 0 <= k < |s| - 1 ensures d'[s[k]].next == s[k + 1] {
      if k >= |chain| { assert s[k] == free[k - |chain|]; }
    }
  }

  // ---- chains ----

  /** A chain's descriptors hold its buffers in order, NEXT on all but the last, and the device's
      copy of the table agrees. */
  predicate DirectOk(d: seq<Desc>, table: seq<Desc>, ch: Chain) {
    && |d| == |table| && Below(ch.idx, |d|) && |ch.idx| == |ch.bufs| > 0
    && (forall k :: 0 <= k < |ch.idx| ==> table[ch.idx[k]] == d[ch.idx[k]])
    && (forall k :: 0 <= k < |ch.idx| ==>
          d[ch.idx[k]] == Holding(ch.bufs[k], k < |ch.idx| - 1, d[ch.idx[k]].next))
    && (forall k :: 0 <= k < |ch.idx| - 1 ==> d[ch.idx[k]].next == ch.idx[k + 1])
  }

  /** An indirect table: entry k points to entry k + 1. */
  predicate ListOk(l: seq<Desc>, bufs: seq<Buf>) {
    && |l| == |bufs| > 0
    && forall k :: 0 <= k < |l| ==> l[k] == Holding(bufs[k], k < |l| - 1, k + 1)
  }

  predicate IndirectOk(d: seq<Desc>, table: seq<Desc>, lists: seq<Option<seq<Desc>>>, ch: Chain) {
    && |ch.idx| == 1 && ch.idx[0] < |d| == |table| == |lists|
    && (var h := ch.idx[0];
        && table[h] == d[h] && d[h].indirect && !d[h].chained && !d[h].write && d[h].len == 16 * |ch.bufs|
        && lists[h].Some? && ListOk(lists[h].value, ch.bufs))
  }

  predicate ChainOk(d: seq<Desc>, table: seq<Desc>, lists: seq<Option<seq<Desc>>>, ch: Chain) {
    if ch.indirect then IndirectOk(d, table, lists, ch)
    else DirectOk(d, table, ch) && |lists| == |d| && forall k :: 0 <= k < |ch.idx| ==> lists[ch.idx[k]] == None
  }

  /** A chain does not notice changes elsewhere. */
  lemma ChainFrame(d: seq<Desc>, table: seq<Desc>, lists: seq<Option<seq<Desc>>>,
                   d': seq<Desc>, table': seq<Desc>, lists': seq<Option<seq<Desc>>>, ch: Chain)
    requires ChainOk(d, table, lists, ch) && |d'| == |d| == |table'| == |lists'|
    requires forall i :: i in ch.idx && i < |d| ==> d'[i] == d[i] && table'[i] == table[i] && lists'[i] == lists[i]
    ensures ChainOk(d', table', lists', ch)
  {
    forall k | 0 <= k < |ch.idx|
      ensures d'[ch.idx[k]] == d[ch.idx[k]] && table'[ch.idx[k]] == table[ch.idx[k]] && lists'[ch.idx[k]] == lists[ch.idx[k]]
    {
      assert ch.idx[k] in ch.idx;
    }
  }

  // ---- what the device reads ----

  /** The buffers a device collects from a descriptor table, following NEXT from `at` for at most
      `limit` descriptors (section 2.6.5 of Virtio v1.1). */
  function Walk(table: seq<Desc>, at: nat, limit: nat): seq<Buf>
    decreases limit
  {
    if limit == 0 || at >= |table| then []
    else
      var x := table[at];
      [Buf(x.addr, x.len, x.write)] + if x.chained then Walk(table, x.next, limit - 1) else []
  }

  lemma {:induction false} WalkFrom(d: seq<Desc>, table: seq<Desc>, ch: Chain, k: nat, limit: nat)
    requires DirectOk(d, table, ch) && k < |ch.idx| && |ch.idx| - k <= limit
    ensures Walk(table, ch.idx[k], limit) == ch.bufs[k..]
    decreases |ch.idx| - k
  {
    var x := table[ch.idx[k]];
    assert x == Holding(ch.bufs[k], k < |ch.idx| - 1, x.next);
    if k < |ch.idx| - 1 {
      WalkFrom(d, table, ch, k + 1, limit - 1);
      assert ch.bufs[k..] == [ch.bufs[k]] + ch.bufs[k + 1..];
    } else {
      assert ch.bufs[k..] == [ch.bufs[k]];
    }
  }

  lemma {:induction false} WalkList(l: seq<Desc>, bufs: seq<Buf>, k: nat, limit: nat)
    requires ListOk(l, bufs) && k < |l| && |l| - k <= limit
    ensures Walk(l, k, limit) == bufs[k..]
    decreases |l| - k
  {
    assert l[k] == Holding(bufs[k], k < |l| - 1, k + 1);
    assert bufs[k..] == [bufs[k]] + bufs[k + 1..];
    hide ListOk;
    if k < |l| - 1 { WalkList(l, bufs, k + 1, limit - 1); }
  }

  /** The buffers a device finds behind a head, following an indirect descriptor into its table, which
      holds as many 16-byte descriptors as the descriptor says. */
  function DeviceReads(table: seq<Desc>, lists: seq<Option<seq<Desc>>>, head: nat): seq<Buf>
    requires head < |table| == |lists|
  {
    if table[head].indirect && lists[head].Some? then Walk(lists[head].value, 0, table[head].len / 16)
    else Walk(table, head, |table|)
  }

  /** From the head of an outstanding chain the device reads exactly the buffers of its request. */
  lemma DeviceReadsRequest(d: seq<Desc>, table: seq<Desc>, lists: seq<Option<seq<Desc>>>, ch: Chain)
    requires ChainOk(d, table, lists, ch) && |table| == |lists| && NoDup(ch.idx)
    ensures ch.idx[0] < |table| && DeviceReads(table, lists, ch.idx[0]) == ch.bufs
  {
    if ch.indirect {
      WalkList(lists[ch.idx[0]].value, ch.bufs, 0, |ch.bufs|);
    } else {
      AtMost(ch.idx, |table|);
      WalkFrom(d, table, ch, 0, |table|);
      assert !table[ch.idx[0]].indirect;
    }
  }

  // ---- the partition ----

  lemma {:induction false} AtMost(s: seq<nat>, n: nat)
    requires NoDup(s) && Below(s, n)
    ensures |s| <= n
    decreases n
  {
    assert s != [] ==> n > s[0];
    if s == [] {
    } else if n - 1 in s {
      var i :| 0 <= i < |s| && s[i] == n - 1;
      AtMost(s[..i] + s[i + 1..], n - 1);
    } else {
      forall k | 0 <= k < |s| ensures s[k] < n - 1 { assert s[k] in s; }
      AtMost(s, n - 1);
    }
  }

  predicate Shaped(n: nat, h: nat, ch: Chain) {
    NoDup(ch.idx) && Below(ch.idx, n) && ch.idx != [] && ch.idx[0] == h
  }

  predicate Apart(s: seq<nat>, t: seq<nat>) {
    forall i :: i in s ==> i !in t
  }

  predicate Covered(free: seq<nat>, chains: map<nat, Chain>, i: nat) {
    i in free || exists h :: h in chains && i in chains[h].idx
  }

  /** The free list and the outstanding chains partition the descriptors. */
  predicate Partition(n: nat, free: seq<nat>, chains: map<nat, Chain>) {
    && NoDup(free) && Below(free, n)
    && (forall h :: h in chains ==> Shaped(n, h, chains[h]) && Apart(chains[h].idx, free))
    && (forall h, g :: h in chains && g in chains && h != g ==> Apart(chains[h].idx, chains[g].idx))
    && (forall i :: 0 <= i < n ==> Covered(free, chains, i))
  }

  lemma HeadsNotFree(n: nat, free: seq<nat>, chains: map<nat, Chain>, h: nat)
    requires Partition(n, free, chains) && h in chains
    ensures h < n && h !in free
  {
    assert Shaped(n, h, chains[h]);
    assert chains[h].idx[0] in chains[h].idx;
  }

  /** Taking the first m free descriptors as a chain. */
  lemma Carves(n: nat, free: seq<nat>, chains: map<nat, Chain>, m: nat, ch: Chain)
    requires Partition(n, free, chains) && 0 < m <= |free| && ch.idx == free[..m]
    ensures free[0] !in chains
    ensures Partition(n, free[m..], chains[free[0] := ch])
  {
    var f', c' := free[m..], chains[free[0] := ch];
    if free[0] in chains { HeadsNotFree(n, free, chains, free[0]); }
    forall i | i in free[..m] || i in f' ensures i in free {}
    forall i | 0 <= i < n ensures Covered(f', c', i) {
      assert Covered(free, chains, i);
      if i in free {
        var k :| 0 <= k < |free| && free[k] == i;
        if k < m { assert c'[free[0]].idx[k] == i; } else { assert f'[k - m] == i; }
      } else {
        var h :| h in chains && i in chains[h].idx;
        assert i in c'[h].idx;
      }
    }
  }

  /** Giving a chain's descriptors back, in front of the free list. */
  lemma Returns(n: nat, free: seq<nat>, chains: map<nat, Chain>, h: nat)
    requires Partition(n, free, chains) && h in chains
    ensures Partition(n, chains[h].idx + free, chains - {h})
    ensures |chains[h].idx| + |free| <= n
  {
    var f', c' := chains[h].idx + free, chains - {h};
    forall i, j | 0 <= i < j < |f'| ensures f'[i] != f'[j] {
      if i < |chains[h].idx| <= j { assert f'[i] in chains[h].idx && f'[j] in free; }
    }
    forall i | 0 <= i < n ensures Covered(f', c', i) {
      assert Covered(free, chains, i);
      if i !in f' {
        var g :| g in chains && i in chains[g].idx;
        assert g in c' && i in c'[g].idx;
      }
    }
    AtMost(f', n);
  }

  /** Exactly one owner: a descriptor is free or belongs to one chain, at one position. */
  lemma OneOwner(n: nat, free: seq<nat>, chains: map<nat, Chain>, i: nat)
    requires Partition(n, free, chains) && i < n
    ensures i in free <==> forall h :: h in chains ==> i !in chains[h].idx
    ensures forall h, g :: h in chains && g in chains && i in chains[h].idx && i in chains[g].idx ==> h == g
  {
    assert Covered(free, chains, i);
  }
}

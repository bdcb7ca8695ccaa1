/** The driver's bookkeeping as values: what the descriptor tables and the rings must look like,
    and how each operation changes them. */
module VirtqStates {
  import opened Wrappers
  import opened VirtqChains
  import opened RingSlots

  datatype UsedElem = UsedElem(id: nat, len: nat)

  /** The three tables, the free list's head and the number of descriptors in use. */
  datatype Tables = Tables(d: seq<Desc>, t: seq<Desc>, l: seq<Option<seq<Desc>>>, head: nat, used: nat)

  predicate TablesOk(n: nat, x: Tables, free: seq<nat>, chains: map<nat, Chain>) {
    && |x.d| == |x.t| == |x.l| == n
    && FreeList(x.d, x.head, free) && Partition(n, free, chains) && |free| + x.used == n
    && (forall h :: h in chains ==> ChainOk(x.d, x.t, x.l, chains[h]))
    && (forall k :: 0 <= k < |free| ==> x.l[free[k]] == None)
  }

  function Writable(bufs: seq<Buf>): nat {
    if bufs == [] then 0 else (if bufs[0].write then bufs[0].len else 0) + Writable(bufs[1..])
  }

  function Ids(done: seq<UsedElem>): seq<nat> {
    seq(|done|, i requires 0 <= i < |done| => done[i].id)
  }

  /** The shared rings, the published indices, the driver's position in the used ring and the
      device's in the available ring; all indices are 16 bits wide. */
  datatype Rings = Rings(avail: seq<nat>, used: seq<UsedElem>, availIdx: nat, takenIdx: nat, lastUsedIdx: nat, usedIdx: nat)

  /** History: how many requests were ever offered and completed, and where the outstanding ones
      are: still in the available ring, held by the device, or in the used ring. */
  datatype Traffic = Traffic(offered: nat, popped: nat, waiting: seq<nat>, held: seq<nat>, done: seq<UsedElem>)

  function Offer(q: Traffic, h: nat): Traffic {
    q.(offered := q.offered + 1, waiting := q.waiting + [h])
  }

  function Take(q: Traffic): Traffic
    requires q.waiting != []
  {
    q.(waiting := q.waiting[1..], held := q.held + [q.waiting[0]])
  }

  function Give(q: Traffic, i: nat, len: nat): Traffic
    requires i < |q.held|
  {
    q.(held := q.held[..i] + q.held[i + 1..], done := q.done + [UsedElem(q.held[i], len)])
  }

  function Pop(q: Traffic): Traffic
    requires q.done != []
  {
    q.(popped := q.popped + 1, done := q.done[1..])
  }

  ghost function Outstanding(q: Traffic): multiset<nat> {
    multiset(q.waiting) + multiset(q.held) + multiset(Ids(q.done))
  }

  /** Every outstanding head is in exactly one of the three places. */
  ghost predicate Shared(chains: map<nat, Chain>, q: Traffic) {
    forall h: nat :: Outstanding(q)[h] == if h in chains then 1 else 0
  }

  /** Requests written so far are counted by `wrote`, read so far by `wrote - |live|`; both 16-bit
      indices follow, and the unread entries are intact. */
  ghost predicate Channel<T(!new)>(ring: seq<T>, writeIdx: nat, readIdx: nat, wrote: nat, live: seq<T>) {
    && SizeOk(|ring|) && |live| <= |ring| && |live| <= wrote
    && writeIdx == Wrap16(wrote) && readIdx == Wrap16(wrote - |live|)
    && Window(ring, wrote - |live|, live)
  }

  predicate Lengths(chains: map<nat, Chain>, done: seq<UsedElem>) {
    forall k :: 0 <= k < |done| ==> done[k].id in chains && done[k].len <= Writable(chains[done[k].id].bufs)
  }

  ghost predicate RingsOk(r: Rings, chains: map<nat, Chain>, q: Traffic) {
    && |r.avail| == |r.used|
    && Channel(r.avail, r.availIdx, r.takenIdx, q.offered, q.waiting)
    && Channel(r.used, r.usedIdx, r.lastUsedIdx, q.popped + |q.done|, q.done)
    && Shared(chains, q) && Lengths(chains, q.done)
  }

  // ---- capacity ----

  lemma {:induction false} Once(s: seq<nat>, x: nat)
    requires NoDup(s)
    ensures multiset(s)[x] == if x in s then 1 else 0
  {
    if s != [] {
      var t := s[..|s| - 1];
      assert s == t + [s[|s| - 1]];
      Once(t, x);
    }
  }

  /** There are never more requests in the rings than descriptors in use. */
  lemma Capacity(n: nat, free: seq<nat>, chains: map<nat, Chain>, q: Traffic)
    requires Partition(n, free, chains) && Shared(chains, q)
    ensures |free| + |q.waiting| + |q.held| + |q.done| <= n
  {
    var all := multiset(free) + Outstanding(q);
    forall h | h in all ensures h < n && all[h] <= 1 {
      Once(free, h);
      if h in chains { HeadsNotFree(n, free, chains, h); }
      if h in multiset(free) { assert h in free; }
    }
    Pigeonhole(all, n);
  }

  lemma IdsPush(done: seq<UsedElem>, e: UsedElem)
    ensures Ids(done + [e]) == Ids(done) + [e.id]
  {
  }

  lemma IdsPop(done: seq<UsedElem>)
    requires done != []
    ensures Ids(done) == [done[0].id] + Ids(done[1..])
  {
  }

  // ---- descriptors ----

  lemma AllFree(d: seq<Desc>, t: seq<Desc>, l: seq<Option<seq<Desc>>>)
    requires d != [] && |t| == |l| == |d|
    requires (forall k :: 0 <= k < |d| - 1 ==> d[k].next == k + 1) && forall k :: 0 <= k < |l| ==> l[k] == None
    ensures TablesOk(|d|, Tables(d, t, l, 0, 0), seq(|d|, i => i), map[])
  {
    var free := seq(|d|, i => i);
    forall i | 0 <= i < |d| ensures Covered(free, map[], i) { assert free[i] == i; }
  }

  /** The first descriptors of the free list hold the buffers; nothing else changed. */
  predicate Filled(x: Tables, x': Tables, free: seq<nat>, bufs: seq<Buf>) {
    && |x'.d| == |x'.t| == |x.d| == |x.t| && 0 < |bufs| <= |free| && Below(free, |x.d|)
    && x'.head == x.d[free[|bufs| - 1]].next
    && (forall j :: 0 <= j < |bufs| ==> x'.d[free[j]] == Holding(bufs[j], j < |bufs| - 1, x.d[free[j]].next))
    && (forall j :: 0 <= j < |bufs| ==> x'.t[free[j]] == x'.d[free[j]])
    && (forall i :: 0 <= i < |x.d| && i !in free[..|bufs|] ==> x'.d[i] == x.d[i] && x'.t[i] == x.t[i])
  }

  /** The table `base` after k buffers have been written along the free list of d. */
  function Fills(base: seq<Desc>, d: seq<Desc>, free: seq<nat>, bufs: seq<Buf>, k: nat): (r: seq<Desc>)
    requires |base| == |d| && k <= |bufs| <= |free| && Below(free, |d|)
    ensures |r| == |d|
  {
    if k == 0 then base
    else Fills(base, d, free, bufs, k - 1)[free[k - 1] := Holding(bufs[k - 1], true, d[free[k - 1]].next)]
  }

  lemma {:induction false} FillsAt(base: seq<Desc>, d: seq<Desc>, free: seq<nat>, bufs: seq<Buf>, k: nat)
    requires |base| == |d| && k <= |bufs| <= |free| && Below(free, |d|) && NoDup(free)
    ensures forall j :: 0 <= j < k ==> Fills(base, d, free, bufs, k)[free[j]] == Holding(bufs[j], true, d[free[j]].next)
    ensures forall i :: 0 <= i < |d| && i !in free[..k] ==> Fills(base, d, free, bufs, k)[i] == base[i]
  {
    if k > 0 {
      FillsAt(base, d, free, bufs, k - 1);
      assert free[..k] == free[..k - 1] + [free[k - 1]];
    }
  }

  /** Filling all buffers and then ending the chain at its last descriptor. */
  lemma FillsAll(x: Tables, x': Tables, free: seq<nat>, bufs: seq<Buf>)
    requires |x.d| == |x.t| && 0 < |bufs| <= |free| && Below(free, |x.d|) && NoDup(free)
    requires x'.head == x.d[free[|bufs| - 1]].next
    requires
      var last, d := free[|bufs| - 1], Fills(x.d, x.d, free, bufs, |bufs|);
      x'.d == d[last := d[last].(chained := false)]
      && x'.t == Fills(x.t, x.d, free, bufs, |bufs|)[last := x'.d[last]]
    ensures Filled(x, x', free, bufs)
  {
    FillsAt(x.d, x.d, free, bufs, |bufs|);
    FillsAt(x.t, x.d, free, bufs, |bufs|);
    assert free[|bufs| - 1] == free[..|bufs|][|bufs| - 1];
  }

  /** The chains already there do not notice a filled one. */
  lemma OthersFilled(n: nat, x: Tables, x': Tables, free: seq<nat>, chains: map<nat, Chain>, bufs: seq<Buf>, h: nat)
    requires TablesOk(n, x, free, chains) && Filled(x, x', free, bufs) && x'.l == x.l && h in chains
    ensures ChainOk(x'.d, x'.t, x'.l, chains[h])
  {
    assert Apart(chains[h].idx, free);
    forall i | i in free[..|bufs|] ensures i in free {}
    ChainFrame(x.d, x.t, x.l, x'.d, x'.t, x'.l, chains[h]);
  }

  lemma NewChain(n: nat, x: Tables, x': Tables, free: seq<nat>, chains: map<nat, Chain>, bufs: seq<Buf>)
    requires TablesOk(n, x, free, chains) && Filled(x, x', free, bufs) && x'.l == x.l
    ensures ChainOk(x'.d, x'.t, x'.l, Chain(free[..|bufs|], bufs, false))
    ensures FreeList(x'.d, x'.head, free[|bufs|..])
  {
    var m := |bufs|;
    forall k | m <= k < |free| ensures free[k] !in free[..m] {}
    FreeTail(x.d, x'.d, x.head, x'.head, free, m);
    assert DirectOk(x'.d, x'.t, Chain(free[..m], bufs, false));
  }

  lemma DirectAdded(n: nat, x: Tables, x': Tables, free: seq<nat>, chains: map<nat, Chain>, bufs: seq<Buf>)
    requires TablesOk(n, x, free, chains) && Filled(x, x', free, bufs)
    requires x'.l == x.l && x'.used == x.used + |bufs|
    ensures free[0] !in chains
    ensures TablesOk(n, x', free[|bufs|..], chains[free[0] := Chain(free[..|bufs|], bufs, false)])
  {
    Carves(n, free, chains, |bufs|, Chain(free[..|bufs|], bufs, false));
    NewChain(n, x, x', free, chains, bufs);
    forall h | h in chains ensures ChainOk(x'.d, x'.t, x'.l, chains[h]) { OthersFilled(n, x, x', free, chains, bufs, h); }
    hide Partition;
    hide ChainOk;
    hide FreeList;
  }

  /** Descriptor h points to an indirect table holding the buffers; nothing else changed. */
  predicate Pointed(x: Tables, x': Tables, h: nat, bufs: seq<Buf>) {
    && |x'.d| == |x'.t| == |x'.l| == |x.d| == |x.t| == |x.l| && h < |x.d|
    && x'.head == x.d[h].next
    && x'.t[h] == x'.d[h] && x'.d[h].indirect && !x'.d[h].chained && !x'.d[h].write && x'.d[h].len == 16 * |bufs|
    && x'.l[h].Some? && ListOk(x'.l[h].value, bufs)
    && (forall i :: 0 <= i < |x.d| && i != h ==> x'.d[i] == x.d[i] && x'.t[i] == x.t[i] && x'.l[i] == x.l[i])
  }

  lemma IndirectAdded(n: nat, x: Tables, x': Tables, free: seq<nat>, chains: map<nat, Chain>, bufs: seq<Buf>)
    requires TablesOk(n, x, free, chains) && free != [] && Pointed(x, x', free[0], bufs) && x'.used == x.used + 1
    ensures free[0] !in chains
    ensures TablesOk(n, x', free[1..], chains[free[0] := Chain(free[..1], bufs, true)])
  {
    var ch := Chain(free[..1], bufs, true);
    Carves(n, free, chains, 1, ch);
    FreeTail(x.d, x'.d, x.head, x'.head, free, 1);
    forall h | h in chains ensures ChainOk(x'.d, x'.t, x'.l, chains[h]) {
      assert Apart(chains[h].idx, free) && free[0] in free;
      ChainFrame(x.d, x.t, x.l, x'.d, x'.t, x'.l, chains[h]);
    }
    assert IndirectOk(x'.d, x'.t, x'.l, ch);
  }

  /** The descriptors of a chain are linked in front of the old free list. */
  predicate Unlinked(x: Tables, x': Tables, s: seq<nat>) {
    && |x'.d| == |x'.t| == |x'.l| == |x.d| == |x.t| == |x.l| && s != [] && Below(s, |x.d|)
    && x'.head == s[0]
    && (forall j :: 0 <= j < |s| ==> x'.l[s[j]] == None)
    && (forall j :: 0 <= j < |s| - 1 ==> x'.d[s[j]].next == s[j + 1]) && x'.d[s[|s| - 1]].next == x.head
    && (forall i :: 0 <= i < |x.d| && i !in s ==> x'.d[i] == x.d[i] && x'.t[i] == x.t[i] && x'.l[i] == x.l[i])
  }

  /** The table `base` after the first k descriptors of chain s have been cleared. */
  function Clears(base: seq<Desc>, d: seq<Desc>, s: seq<nat>, k: nat, head: nat): (r: seq<Desc>)
    requires |base| == |d| && k <= |s| && Below(s, |d|)
    ensures |r| == |d|
  {
    if k == 0 then base
    else
      var x := d[s[k - 1]].(addr := 0, len := 0);
      Clears(base, d, s, k - 1, head)[s[k - 1] := if k == |s| then x.(next := head) else x]
  }

  lemma {:induction false} ClearsAt(base: seq<Desc>, d: seq<Desc>, s: seq<nat>, k: nat, head: nat)
    requires |base| == |d| && k <= |s| && Below(s, |d|) && NoDup(s)
    ensures forall j :: 0 <= j < k ==> Clears(base, d, s, k, head)[s[j]].next == if j == |s| - 1 then head else d[s[j]].next
    ensures forall j :: k <= j < |s| ==> Clears(base, d, s, k, head)[s[j]] == base[s[j]]
    ensures forall i :: 0 <= i < |d| && i !in s ==> Clears(base, d, s, k, head)[i] == base[i]
  {
    if k > 0 {
      ClearsAt(base, d, s, k - 1, head);
      assert s[k - 1] in s;
    }
  }

  /** Clearing a whole direct chain links it in front of the old free list. */
  lemma ClearsAll(x: Tables, x': Tables, ch: Chain)
    requires |x.l| == |x.d| && DirectOk(x.d, x.t, ch) && NoDup(ch.idx) && x'.l == x.l && x'.head == ch.idx[0]
    requires forall k :: 0 <= k < |ch.idx| ==> x.l[ch.idx[k]] == None
    requires x'.d == Clears(x.d, x.d, ch.idx, |ch.idx|, x.head) && x'.t == Clears(x.t, x.d, ch.idx, |ch.idx|, x.head)
    ensures Unlinked(x, x', ch.idx)
  {
    ClearsAt(x.d, x.d, ch.idx, |ch.idx|, x.head);
    ClearsAt(x.t, x.d, ch.idx, |ch.idx|, x.head);
  }

  /** The next descriptor to clear is untouched and says whether the chain goes on. */
  lemma ClearsNext(d: seq<Desc>, t: seq<Desc>, ch: Chain, k: nat, head: nat)
    requires DirectOk(d, t, ch) && NoDup(ch.idx) && k < |ch.idx|
    ensures var x := Clears(d, d, ch.idx, k, head)[ch.idx[k]];
      && x == d[ch.idx[k]] && (x.chained <==> k < |ch.idx| - 1) && (x.chained ==> x.next == ch.idx[k + 1])
  {
    ClearsAt(d, d, ch.idx, k, head);
  }

  lemma Recycled(n: nat, x: Tables, x': Tables, free: seq<nat>, chains: map<nat, Chain>, h: nat)
    requires TablesOk(n, x, free, chains) && h in chains && Unlinked(x, x', chains[h].idx)
    requires x'.used == x.used - |chains[h].idx|
    ensures TablesOk(n, x', chains[h].idx + free, chains - {h})
  {
    var s := chains[h].idx;
    Returns(n, free, chains, h);
    assert Shaped(n, h, chains[h]) && Apart(s, free);
    forall k | 0 <= k < |free| ensures free[k] !in s { assert free[k] in free; }
    FreePrepend(x.d, x'.d, x.head, free, s);
    forall g | g in chains - {h} ensures ChainOk(x'.d, x'.t, x'.l, chains[g]) {
      assert Apart(chains[g].idx, s);
      ChainFrame(x.d, x.t, x.l, x'.d, x'.t, x'.l, chains[g]);
    }
  }

  // ---- requests moving through the rings ----

  /** Writing the next slot of a ring that is not full overwrites no unread entry. */
  lemma ChannelWrite<T(!new)>(ring: seq<T>, writeIdx: nat, readIdx: nat, wrote: nat, live: seq<T>, x: T)
    requires Channel(ring, writeIdx, readIdx, wrote, live) && |live| < |ring|
    ensures Slot(writeIdx, |ring|) < |ring|
    ensures Channel(ring[Slot(writeIdx, |ring|) := x], Wrap16(writeIdx + 1), readIdx, wrote + 1, live + [x])
  {
    hide Slot, Wrap16, Window, SizeOk;
    WrapKeepsSlot(wrote, |ring|);
    WindowPush(ring, wrote - |live|, live, x);
    WrapStep(wrote);
    assert (wrote + 1) - |live + [x]| == wrote - |live|;
  }

  /** The reader sees an entry exactly when there is one, finds the oldest, and moves on. */
  lemma ChannelRead<T(!new)>(ring: seq<T>, writeIdx: nat, readIdx: nat, wrote: nat, live: seq<T>)
    requires Channel(ring, writeIdx, readIdx, wrote, live)
    ensures readIdx != writeIdx <==> live != []
    ensures live != [] ==>
      && Slot(readIdx, |ring|) < |ring| && ring[Slot(readIdx, |ring|)] == live[0]
      && Channel(ring, writeIdx, Wrap16(readIdx + 1), wrote, live[1..])
  {
    hide Slot, Wrap16;
    WrapDiffers(wrote - |live|, wrote);
    if live != [] {
      WrapKeepsSlot(wrote - |live|, |ring|);
      WrapStep(wrote - |live|);
      assert wrote - |live[1..]| == wrote - |live| + 1;
    }
  }

  /** The driver offers a request. */
  lemma Offered(r: Rings, chains: map<nat, Chain>, ch: Chain, q: Traffic, h: nat)
    requires RingsOk(r, chains, q) && |q.waiting| < |r.avail| && h !in chains
    ensures Slot(r.availIdx, |r.avail|) < |r.avail|
    ensures RingsOk(r.(avail := r.avail[Slot(r.availIdx, |r.avail|) := h], availIdx := Wrap16(r.availIdx + 1)),
                    chains[h := ch], Offer(q, h))
  {
    ChannelWrite(r.avail, r.availIdx, r.takenIdx, q.offered, q.waiting, h);
    SharedOffer(chains, ch, q, h);
  }

  lemma SharedOffer(chains: map<nat, Chain>, ch: Chain, q: Traffic, h: nat)
    requires Shared(chains, q) && h !in chains
    ensures Shared(chains[h := ch], Offer(q, h))
  {
    var q' := Offer(q, h);
    assert Outstanding(q') == Outstanding(q) + multiset{h};
  }

  /** The device takes the oldest waiting request. */
  lemma Taken(r: Rings, chains: map<nat, Chain>, q: Traffic)
    requires RingsOk(r, chains, q) && q.waiting != []
    ensures Slot(r.takenIdx, |r.avail|) < |r.avail| && r.avail[Slot(r.takenIdx, |r.avail|)] == q.waiting[0]
    ensures q.waiting[0] in chains
    ensures RingsOk(r.(takenIdx := Wrap16(r.takenIdx + 1)), chains,
                    Take(q))
  {
    var q' := Take(q);
    ChannelRead(r.avail, r.availIdx, r.takenIdx, q.offered, q.waiting);
    assert q'.done == q.done && q'.popped == q.popped && q'.waiting == q.waiting[1..];
    assert Shared(chains, q') by { SharedTake(chains, q); }
    assert q.waiting[0] in chains by { SharedTake(chains, q); }
  }

  lemma SharedTake(chains: map<nat, Chain>, q: Traffic)
    requires Shared(chains, q) && q.waiting != []
    ensures q.waiting[0] in chains
    ensures Shared(chains, Take(q))
  {
    var q' := Take(q);
    assert q.waiting == [q.waiting[0]] + q.waiting[1..];
    assert Outstanding(q') == Outstanding(q);
    assert Outstanding(q)[q.waiting[0]] > 0;
  }

  /** The device returns one of the requests it holds. */
  lemma Given(r: Rings, chains: map<nat, Chain>, q: Traffic, i: nat, len: nat)
    requires RingsOk(r, chains, q) && i < |q.held| && |q.done| < |r.used|
    requires q.held[i] in chains && len <= Writable(chains[q.held[i]].bufs)
    ensures Slot(r.usedIdx, |r.used|) < |r.used|
    ensures var e := UsedElem(q.held[i], len);
      RingsOk(r.(used := r.used[Slot(r.usedIdx, |r.used|) := e], usedIdx := Wrap16(r.usedIdx + 1)), chains,
              Give(q, i, len))
  {
    var e := UsedElem(q.held[i], len);
    var q' := Give(q, i, len);
    ChannelWrite(r.used, r.usedIdx, r.lastUsedIdx, q.popped + |q.done|, q.done, e);
    assert q'.popped + |q'.done| == q.popped + |q.done| + 1;
    assert Shared(chains, q') by { SharedGive(chains, q, i, len); }
  }

  lemma SharedGive(chains: map<nat, Chain>, q: Traffic, i: nat, len: nat)
    requires Shared(chains, q) && i < |q.held|
    ensures Shared(chains, Give(q, i, len))
  {
    var e := UsedElem(q.held[i], len);
    IdsPush(q.done, e);
    var q' := Give(q, i, len);
    assert q.held == q.held[..i] + [q.held[i]] + q.held[i + 1..];
    assert Outstanding(q') == Outstanding(q);
  }

  /** The driver completes the oldest returned request. */
  lemma Popped(r: Rings, chains: map<nat, Chain>, q: Traffic)
    requires RingsOk(r, chains, q) && q.done != []
    ensures RingsOk(r.(lastUsedIdx := Wrap16(r.lastUsedIdx + 1)), chains - {q.done[0].id},
                    Pop(q))
  {
    ChannelRead(r.used, r.usedIdx, r.lastUsedIdx, q.popped + |q.done|, q.done);
    SharedPop(chains, q);
  }

  lemma SharedPop(chains: map<nat, Chain>, q: Traffic)
    requires Shared(chains, q) && q.done != [] && Lengths(chains, q.done)
    ensures Shared(chains - {q.done[0].id}, Pop(q))
    ensures Lengths(chains - {q.done[0].id}, q.done[1..])
  {
    IdsPop(q.done);
    var h, q' := q.done[0].id, Pop(q);
    assert Outstanding(q) == multiset{h} + Outstanding(q');
    forall k | 0 <= k < |q'.done| ensures q'.done[k].id != h {
      assert Ids(q'.done)[k] in Ids(q'.done);
      assert Outstanding(q')[Ids(q'.done)[k]] > 0;
    }
  }
}

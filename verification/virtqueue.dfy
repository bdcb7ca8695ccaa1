/** The split virtqueue driver (virtio-drivers-patched/src/queue.rs) and the device it talks to.
    The device's moves are methods too: it takes requests from the available ring in order, and
    returns requests it has taken, in any order, through the used ring. */
module Virtqueue {
  import opened Wrappers
  import opened VirtqChains
  import opened RingSlots
  import opened VirtqStates

  datatype Error = InvalidParam | QueueFull | NotReady | WrongToken | AlreadyUsed
  datatype Result<+T> = Ok(value: T) | Err(error: Error)

  /** A slice of the driver's memory.  Which way it goes depends on the list it is passed in. */
  datatype Mem = Mem(addr: nat, len: nat)

  /** Inputs first, then outputs: the order in which descriptors are filled. */
  function Request(inputs: seq<Mem>, outputs: seq<Mem>): (r: seq<Buf>)
    ensures |r| == |inputs| + |outputs|
  {
    seq(|inputs|, k requires 0 <= k < |inputs| => Buf(inputs[k].addr, inputs[k].len, false))
    + seq(|outputs|, k requires 0 <= k < |outputs| => Buf(outputs[k].addr, outputs[k].len, true))
  }

  /** A device that reads these buffers gets every input in order, to read, and then every output in
      order, to write. */
  predicate Carries(seen: seq<Buf>, inputs: seq<Mem>, outputs: seq<Mem>) {
    && |seen| == |inputs| + |outputs|
    && (forall k :: 0 <= k < |inputs| ==> seen[k] == Buf(inputs[k].addr, inputs[k].len, false))
    && (forall k :: 0 <= k < |outputs| ==> seen[|inputs| + k] == Buf(outputs[k].addr, outputs[k].len, true))
  }

  lemma RequestCarries(inputs: seq<Mem>, outputs: seq<Mem>)
    ensures Carries(Request(inputs, outputs), inputs, outputs)
  {
  }

  function Total(mems: seq<Mem>): nat {
    if mems == [] then 0 else mems[0].len + Total(mems[1..])
  }

  /** The device may write the outputs and nothing else. */
  lemma {:induction false} OutputsOnly(inputs: seq<Mem>, outputs: seq<Mem>)
    ensures Writable(Request(inputs, outputs)) == Total(outputs)
    decreases |inputs| + |outputs|
  {
    var r := Request(inputs, outputs);
    if inputs != [] {
      OutputsOnly(inputs[1..], outputs);
      assert r[1..] == Request(inputs[1..], outputs);
    } else if outputs != [] {
      OutputsOnly([], outputs[1..]);
      assert r[1..] == Request([], outputs[1..]);
    }
  }

  /** Neither empty nor longer than a descriptor can say. */
  predicate Sendable(mems: seq<Mem>) {
    forall i :: 0 <= i < |mems| ==> 0 < mems[i].len < 0x1_0000_0000
  }

  class VirtQueue {
    const size: nat
    const indirect: bool
    const shadow: array<Desc>
    const table: array<Desc>
    const lists: array<Option<seq<Desc>>>
    const availRing: array<nat>
    const usedRing: array<UsedElem>
    var freeHead: nat
    var numUsed: nat
    var availIdx: nat
    var lastUsedIdx: nat
    var usedIdx: nat
    // The device's own memory: its position in the available ring and the requests it holds.
    var takenIdx: nat
    var held: seq<nat>

    ghost var free: seq<nat>
    ghost var chains: map<nat, Chain>
    ghost var traffic: Traffic

    ghost predicate Fixed() {
      && SizeOk(size) && shadow.Length == table.Length == lists.Length == size
      && availRing.Length == usedRing.Length == size && shadow != table
    }

    ghost function TablesNow(): Tables
      reads this, shadow, table, lists
    {
      Tables(shadow[..], table[..], lists[..], freeHead, numUsed)
    }

    ghost function RingsNow(): Rings
      reads this, availRing, usedRing
    {
      Rings(availRing[..], usedRing[..], availIdx, takenIdx, lastUsedIdx, usedIdx)
    }

    /** Free list and chains partition the descriptors and every chain reads back right; live ring
        entries are in their slots and the indices are the wrapped counters. */
    ghost predicate Valid()
      reads this, shadow, table, lists, availRing, usedRing
    {
      && Fixed() && TablesOk(size, TablesNow(), free, chains)
      && RingsOk(RingsNow(), chains, traffic) && held == traffic.held
    }

    /** No request outstanding and descriptors still in their original order. */
    ghost predicate Pristine()
      reads this
    {
      chains == map[] && free == seq(size, i => i)
    }

    constructor (size: nat, indirect: bool)
      requires SizeOk(size)
      ensures Valid() && Pristine() && this.size == size && this.indirect == indirect
      ensures traffic == Traffic(0, 0, [], [], [])
      ensures fresh(shadow) && fresh(table) && fresh(lists) && fresh(availRing) && fresh(usedRing)
    {
      this.size := size;
      this.indirect := indirect;
      shadow := new Desc[size](_ => Desc(0, 0, false, false, false, 0));
      table := new Desc[size](_ => Desc(0, 0, false, false, false, 0));
      lists := new Option<seq<Desc>>[size](_ => None);
      availRing := new nat[size](_ => 0);
      usedRing := new UsedElem[size](_ => UsedElem(0, 0));
      freeHead, numUsed, availIdx, lastUsedIdx, usedIdx, takenIdx, held := 0, 0, 0, 0, 0, 0, [];
      free, chains, traffic := seq(size, i => i), map[], Traffic(0, 0, [], [], []);
      new;
      Link();
      AllFree(shadow[..], table[..], lists[..]);
    }

    /** Links the descriptors together. */
    method Link()
      requires Fixed()
      modifies shadow, table
      ensures forall k :: 0 <= k < size - 1 ==> shadow[k].next == k + 1
    {
      for i := 0 to size - 1
        invariant forall k :: 0 <= k < i ==> shadow[k].next == k + 1
      {
        shadow[i] := shadow[i].(next := i + 1);
        table[i] := table[i].(next := i + 1);
      }
    }

    /** Fills one descriptor per buffer, walking the free list. */
    method Fill(bufs: seq<Buf>)
      requires Fixed() && FreeList(shadow[..], freeHead, free) && NoDup(free) && 0 < |bufs| <= |free|
      modifies this`freeHead, shadow, table
      ensures Filled(old(TablesNow()), TablesNow(), free, bufs)
    {
      var last := freeHead;
      ghost var d, t := shadow[..], table[..];
      for k := 0 to |bufs|
        invariant freeHead == if k == 0 then old(freeHead) else d[free[k - 1]].next
        invariant last == if k == 0 then old(freeHead) else free[k - 1]
        invariant shadow[..] == Fills(d, d, free, bufs, k)
        invariant table[..] == Fills(t, d, free, bufs, k)
      {
        FillsAt(d, d, free, bufs, k);
        assert freeHead == free[k] && free[k] !in free[..k];
        assert shadow[..][freeHead] == d[freeHead];
        shadow[freeHead] := Holding(bufs[k], true, shadow[freeHead].next);
        last := freeHead;
        freeHead := shadow[freeHead].next;
        table[last] := shadow[last];
      }
      shadow[last] := shadow[last].(chained := false);
      table[last] := shadow[last];
      FillsAll(old(TablesNow()), TablesNow(), free, bufs);
    }

    method AddDirect(bufs: seq<Buf>) returns (head: nat)
      requires Fixed() && TablesOk(size, TablesNow(), free, chains) && 0 < |bufs| <= |free|
      modifies this`freeHead, this`numUsed, this`free, this`chains, shadow, table
      ensures TablesOk(size, TablesNow(), free, chains)
      ensures head == old(free[0]) && head !in old(chains)
      ensures free == old(free[|bufs|..])
      ensures chains == old(chains)[head := Chain(old(free[..|bufs|]), bufs, false)]
    {
      head := freeHead;
      ghost var x := TablesNow();
      Fill(bufs);
      numUsed := numUsed + |bufs|;
      DirectAdded(size, x, TablesNow(), free, chains, bufs);
      chains := chains[head := Chain(free[..|bufs|], bufs, false)];
      free := free[|bufs|..];
    }

    /** Builds the indirect table. */
    method Spell(bufs: seq<Buf>) returns (l: seq<Desc>)
      requires bufs != []
      ensures ListOk(l, bufs)
    {
      l := seq(|bufs|, _ => Desc(0, 0, false, false, false, 0));
      for k := 0 to |bufs|
        invariant |l| == |bufs|
        invariant forall j :: 0 <= j < k ==> l[j] == Holding(bufs[j], true, j + 1)
      {
        l := l[k := Holding(bufs[k], true, k + 1)];
      }
      l := l[|l| - 1 := l[|l| - 1].(chained := false)];
    }

    /** Puts the buffers in a table of their own, shared at address `at`, and points one
        descriptor at it. */
    method AddIndirect(bufs: seq<Buf>, at: nat) returns (head: nat)
      requires Fixed() && TablesOk(size, TablesNow(), free, chains) && bufs != [] && free != []
      modifies this`freeHead, this`numUsed, this`free, this`chains, shadow, table, lists
      ensures TablesOk(size, TablesNow(), free, chains)
      ensures head == old(free[0]) && head !in old(chains)
      ensures free == old(free[1..])
      ensures chains == old(chains)[head := Chain(old(free[..1]), bufs, true)]
      ensures head < size && table[head].addr == at && table[head].len == 16 * |bufs|
    {
      head := freeHead;
      ghost var x := TablesNow();
      var l := Spell(bufs);
      assert lists[head] == None;
      lists[head] := Some(l);
      freeHead := shadow[head].next;
      shadow[head] := Desc(at, 16 * |bufs|, false, false, true, shadow[head].next);
      table[head] := shadow[head];
      numUsed := numUsed + 1;
      IndirectAdded(size, x, TablesNow(), free, chains, bufs);
      chains := chains[head := Chain(free[..1], bufs, true)];
      free := free[1..];
    }

    predicate NoRoom(n: nat)
      reads this
    {
      numUsed + 1 > size || n > size || (!indirect && numUsed + n > size)
    }

    /** Offers a request to the device, whose indirect table, if it gets one, is shared at address
        `at`.  The token is the chain's head descriptor, and what the device finds behind it is the
        caller's inputs and outputs. */
    method Add(inputs: seq<Mem>, outputs: seq<Mem>, at: nat) returns (r: Result<nat>)
      requires Valid() && Sendable(inputs) && Sendable(outputs)
      modifies this`freeHead, this`numUsed, this`availIdx, this`free, this`chains, this`traffic
      modifies shadow, table, lists, availRing
      ensures Valid()
      ensures var n, left := |inputs| + |outputs|, |old(free)|;
        r == if n == 0 then Err(InvalidParam)
             else if (if indirect then left == 0 || n > size else n > left) then Err(QueueFull)
             else Ok(old(free)[0])
      ensures r.Ok? ==> r.value < size && Carries(DeviceReads(table[..], lists[..], r.value), inputs, outputs)
      ensures r.Ok? && indirect && |inputs| + |outputs| > 1 ==> table[r.value].addr == at && table[r.value].len == 16 * (|inputs| + |outputs|)
      ensures r.Err? ==>
        && TablesNow() == old(TablesNow()) && RingsNow() == old(RingsNow())
        && free == old(free) && chains == old(chains) && traffic == old(traffic)
      ensures r.Ok? ==>
        var lone := indirect && |inputs| + |outputs| > 1;
        var used := if lone then 1 else |inputs| + |outputs|;
        && used <= |old(free)| && r.value == old(free)[0] && r.value !in old(chains)
        && free == old(free)[used..]
        && chains == old(chains)[r.value := Chain(old(free)[..used], Request(inputs, outputs), lone)]
        && traffic == Offer(old(traffic), r.value)
    {
      if inputs == [] && outputs == [] { return Err(InvalidParam); }
      var needed := |inputs| + |outputs|;
      FreeRoom();
      hide TablesOk, RingsOk, DeviceReads, SizeOk;
      if NoRoom(needed) { return Err(QueueFull); }
      RequestCarries(inputs, outputs);
      hide Request, Carries;
      var head := Offers(Request(inputs, outputs), at);
      return Ok(head);
    }

    /** Before a request is added there is room in the available ring. */
    lemma FreeRoom()
      requires Valid()
      ensures |free| + numUsed == size && |traffic.waiting| + |free| <= size
      ensures free != [] ==> freeHead == free[0]
    {
      Capacity(size, free, chains, traffic);
    }

    lemma FreeBelow()
      requires Valid()
      ensures Below(free, size)
    {
    }

    lemma FirstIsOurs()
      requires Valid() && traffic.done != []
      ensures traffic.done[0].id in chains
    {
    }

    lemma HeldIsOurs(i: nat)
      requires Valid() && i < |held|
      ensures held[i] in chains
    {
      assert Outstanding(traffic)[traffic.held[i]] > 0;
    }

    method Offers(bufs: seq<Buf>, at: nat) returns (head: nat)
      requires Valid() && bufs != [] && !NoRoom(|bufs|) && |free| + numUsed == size && |traffic.waiting| + |free| <= size
      modifies this`freeHead, this`numUsed, this`availIdx, this`free, this`chains, this`traffic
      modifies shadow, table, lists, availRing
      ensures Valid()
      ensures var used := if indirect && |bufs| > 1 then 1 else |bufs|;
        && used <= |old(free)| && head == old(free)[0] == old(freeHead) && head !in old(chains)
        && free == old(free)[used..]
        && chains == old(chains)[head := Chain(old(free)[..used], bufs, indirect && |bufs| > 1)]
        && traffic == Offer(old(traffic), head)
      ensures indirect && |bufs| > 1 ==> head < size && table[head].addr == at && table[head].len == 16 * |bufs|
      ensures head < size && DeviceReads(table[..], lists[..], head) == bufs
    {
      hide DeviceReads;
      hide TablesOk;
      hide RingsOk;
      ghost var r := RingsNow();
      head := Chains(bufs, at);
      assert RingsNow() == r;
      ghost var x := TablesNow();
      ReadsChain(size, x, free, chains, head);
      Publish(head, old(chains), chains[head]);
      assert TablesNow() == x;
    }

    /** Adding one buffer the device may write takes the first free descriptor. */
    method AddOne(b: Mem) returns (r: Result<nat>)
      requires Valid() && free != [] && Sendable([b])
      modifies this`freeHead, this`numUsed, this`availIdx, this`free, this`chains, this`traffic
      modifies shadow, table, lists, availRing
      ensures Valid() && r == Ok(old(free)[0]) && free == old(free)[1..]
      ensures chains == old(chains)[old(free)[0] := Chain([old(free)[0]], [Buf(b.addr, b.len, true)], false)]
      ensures traffic == Offer(old(traffic), old(free)[0])
    {
      FreeRoom();
      assert Request([], [b]) == [Buf(b.addr, b.len, true)];
      assert Sendable([]);
      assert !NoRoom(1) && old(free)[..1] == [old(free)[0]];
      hide Valid, Request, Sendable, Offer, NoRoom, Carries, DeviceReads;
      r := Add([], [b], 0);
    }

    method Chains(bufs: seq<Buf>, at: nat) returns (head: nat)
      requires Fixed() && TablesOk(size, TablesNow(), free, chains) && bufs != [] && !NoRoom(|bufs|)
      modifies this`freeHead, this`numUsed, this`free, this`chains, shadow, table, lists
      ensures TablesOk(size, TablesNow(), free, chains)
      ensures var used := if indirect && |bufs| > 1 then 1 else |bufs|;
        && used <= |old(free)| && head == old(free)[0] == old(freeHead) && head !in old(chains)
        && free == old(free)[used..]
        && chains == old(chains)[head := Chain(old(free)[..used], bufs, indirect && |bufs| > 1)]
      ensures indirect && |bufs| > 1 ==> head < size && table[head].addr == at && table[head].len == 16 * |bufs|
    {
      if indirect && |bufs| > 1 { head := AddIndirect(bufs, at); } else { head := AddDirect(bufs); }
    }

    /** Writes the head into the available ring and advances the index. */
    method Publish(head: nat, ghost was: map<nat, Chain>, ghost ch: Chain)
      requires Fixed() && RingsOk(RingsNow(), was, traffic) && |traffic.waiting| < size && head !in was
      modifies this`availIdx, this`traffic, availRing
      ensures RingsOk(RingsNow(), was[head := ch], traffic)
      ensures traffic == Offer(old(traffic), head)
    {
      Offered(RingsNow(), was, ch, traffic, head);
      ghost var r := RingsNow();
      var slot := Slot(availIdx, size);
      availRing[slot] := head;
      assert availRing[..] == r.avail[slot := head];
      availIdx := Wrap16(availIdx + 1);
      traffic := Offer(traffic, head);
    }

    /** Is there a returned request? */
    predicate CanPop()
      requires Valid()
      reads this, shadow, table, lists, availRing, usedRing
      ensures CanPop() <==> traffic.done != []
    {
      ChannelRead(usedRing[..], usedIdx, lastUsedIdx, traffic.popped + |traffic.done|, traffic.done);
      lastUsedIdx != usedIdx
    }

    /** The token of the next returned request. */
    function PeekUsed(): (r: Option<nat>)
      requires Valid()
      reads this, shadow, table, lists, availRing, usedRing
      ensures r == if traffic.done == [] then None else Some(traffic.done[0].id)
    {
      ChannelRead(usedRing[..], usedIdx, lastUsedIdx, traffic.popped + |traffic.done|, traffic.done);
      if CanPop() then Some(usedRing[Slot(lastUsedIdx, size)].id) else None
    }

    /** Unlinks a direct chain.  The source's panics, a chain shorter or longer than the buffers
        passed, are the two assertions. */
    method Unchain(head: nat, bufs: seq<Buf>, ghost ch: Chain, original: nat)
      requires Fixed() && DirectOk(shadow[..], table[..], ch) && ch.idx[0] == head && ch.bufs == bufs && NoDup(ch.idx)
      requires numUsed >= |bufs| && original == freeHead
      requires forall k :: 0 <= k < |ch.idx| ==> lists[ch.idx[k]] == None
      modifies this`numUsed, this`freeHead, shadow, table
      ensures Unlinked(old(TablesNow()), TablesNow(), ch.idx) && numUsed == old(numUsed) - |bufs|
    {
      ghost var d, t, s := shadow[..], table[..], ch.idx;
      freeHead := head;
      var next := Some(head);
      for k := 0 to |bufs|
        invariant numUsed == old(numUsed) - k && freeHead == head
        invariant next == if k < |bufs| then Some(s[k]) else None
        invariant shadow[..] == Clears(d, d, s, k, original)
        invariant table[..] == Clears(t, d, s, k, original)
      {
        ClearsNext(d, t, ch, k, original);
        assert next.Some?;
        var at := next.value;
        assert shadow[..][at] == d[at];
        var x := shadow[at].(addr := 0, len := 0);
        numUsed := numUsed - 1;
        next := if x.chained then Some(x.next) else None;
        shadow[at] := if next == None then x.(next := original) else x;
        table[at] := shadow[at];
      }
      assert next == None;
      ClearsAll(old(TablesNow()), TablesNow(), ch);
    }

    /** Drops an indirect table and unlinks its descriptor. */
    method Unpoint(head: nat, ghost ch: Chain, n: nat, original: nat)
      requires Fixed() && IndirectOk(shadow[..], table[..], lists[..], ch) && ch.idx[0] == head && n == |ch.bufs|
      requires numUsed >= 1 && original == freeHead
      modifies this`numUsed, this`freeHead, shadow, lists
      ensures Unlinked(old(TablesNow()), TablesNow(), ch.idx) && numUsed == old(numUsed) - 1
    {
      freeHead := head;
      assert lists[head].Some?;
      assert |lists[head].value| == n;
      lists[head] := None;
      numUsed := numUsed - 1;
      shadow[head] := shadow[head].(addr := 0, len := 0, next := original);
    }

    /** Returns a chain's descriptors to the front of the free list. */
    method Recycle(head: nat, bufs: seq<Buf>)
      requires Fixed() && TablesOk(size, TablesNow(), free, chains) && head in chains && chains[head].bufs == bufs
      modifies this`freeHead, this`numUsed, this`free, this`chains, shadow, table, lists
      ensures TablesOk(size, TablesNow(), free, chains)
      ensures free == old(chains[head].idx + free) && chains == old(chains) - {head}
    {
      ghost var x, ch := TablesNow(), chains[head];
      Returns(size, free, chains, head);
      assert ChainOk(x.d, x.t, x.l, ch) && Shaped(size, head, ch);
      if shadow[head].indirect {
        Unpoint(head, ch, |bufs|, freeHead);
      } else {
        Unchain(head, bufs, ch, freeHead);
      }
      Recycled(size, x, TablesNow(), free, chains, head);
      free := ch.idx + free;
      chains := chains - {head};
    }

    /** Completes the request `token` if it is the next returned one. */
    method PopUsed(token: nat, inputs: seq<Mem>, outputs: seq<Mem>) returns (r: Result<nat>)
      requires Valid()
      requires traffic.done != [] && traffic.done[0].id == token && token in chains ==>
        chains[token].bufs == Request(inputs, outputs)
      modifies this`freeHead, this`numUsed, this`lastUsedIdx, this`free, this`chains, this`traffic
      modifies shadow, table, lists
      ensures Valid()
      ensures var done := old(traffic.done);
        r == if done == [] then Err(NotReady) else if done[0].id != token then Err(WrongToken) else Ok(done[0].len)
      ensures r.Err? ==>
        && TablesNow() == old(TablesNow()) && RingsNow() == old(RingsNow())
        && free == old(free) && chains == old(chains) && traffic == old(traffic)
      ensures r.Ok? ==>
        && token in old(chains) && r.value <= Total(outputs)
        && free == old(chains)[token].idx + old(free) && chains == old(chains) - {token}
        && traffic == Pop(old(traffic))
    {
      var next := NextUsed();
      if next == None { return Err(NotReady); }
      var e := next.value;
      if e.id != token { return Err(WrongToken); }
      OutputsOnly(inputs, outputs);
      Completes(e.id, Request(inputs, outputs));
      return Ok(e.len);
    }

    method Completes(id: nat, bufs: seq<Buf>)
      requires Valid() && traffic.done != [] && traffic.done[0].id == id && id in chains && chains[id].bufs == bufs
      modifies this`freeHead, this`numUsed, this`lastUsedIdx, this`free, this`chains, this`traffic
      modifies shadow, table, lists
      ensures Valid() && free == old(chains)[id].idx + old(free) && chains == old(chains) - {id} && traffic == Pop(old(traffic))
    {
      hide TablesOk;
      hide RingsOk;
      ghost var r := RingsNow();
      Recycle(id, bufs);
      assert RingsNow() == r;
      ghost var x := TablesNow();
      Consume(old(chains));
      assert TablesNow() == x;
    }

    /** The oldest unread entry of the used ring. */
    method NextUsed() returns (e: Option<UsedElem>)
      requires Fixed() && RingsOk(RingsNow(), chains, traffic)
      ensures e == if traffic.done == [] then None else Some(traffic.done[0])
      ensures e.Some? ==> e.value.id in chains && e.value.len <= Writable(chains[e.value.id].bufs)
    {
      ChannelRead(usedRing[..], usedIdx, lastUsedIdx, traffic.popped + |traffic.done|, traffic.done);
      if lastUsedIdx == usedIdx { return None; }
      return Some(usedRing[Slot(lastUsedIdx, size)]);
    }

    method Consume(ghost was: map<nat, Chain>)
      requires Fixed() && RingsOk(RingsNow(), was, traffic) && traffic.done != []
      modifies this`lastUsedIdx, this`traffic
      ensures RingsOk(RingsNow(), was - {old(traffic.done)[0].id}, traffic)
      ensures traffic == Pop(old(traffic))
    {
      hide RingsOk, Wrap16, Pop, SizeOk;
      ghost var r := RingsNow();
      Popped(r, was, traffic);
      lastUsedIdx := Wrap16(lastUsedIdx + 1);
      assert RingsNow() == r.(lastUsedIdx := lastUsedIdx);
      traffic := Pop(traffic);
    }

    // ---- the device ----

    /** The device reads the next available entry, if there is one, and behind it exactly the
        request's buffers. */
    method DeviceTakes() returns (head: Option<nat>)
      requires Valid()
      modifies this`takenIdx, this`held, this`traffic
      ensures Valid()
      ensures if old(traffic.waiting) == [] then head == None && traffic == old(traffic)
              else head == Some(old(traffic.waiting)[0]) && traffic == Take(old(traffic))
      ensures head.Some? ==>
        head.value in chains && DeviceReads(table[..], lists[..], head.value) == chains[head.value].bufs
    {
      hide TablesOk, RingsOk, DeviceReads;
      head := TakeSlot();
      if head.Some? { ReadsChain(size, TablesNow(), free, chains, head.value); }
    }

    method TakeSlot() returns (head: Option<nat>)
      requires Fixed() && RingsOk(RingsNow(), chains, traffic) && held == traffic.held
      modifies this`takenIdx, this`held, this`traffic
      ensures RingsOk(RingsNow(), chains, traffic) && held == traffic.held
      ensures if old(traffic.waiting) == [] then head == None && traffic == old(traffic)
              else head == Some(old(traffic.waiting)[0]) && traffic == Take(old(traffic)) && head.value in chains
    {
      ghost var r := RingsNow();
      ChannelRead(r.avail, availIdx, takenIdx, traffic.offered, traffic.waiting);
      if takenIdx == availIdx { return None; }
      Taken(r, chains, traffic);
      var h := availRing[Slot(takenIdx, size)];
      takenIdx := Wrap16(takenIdx + 1);
      held := held + [h];
      assert RingsNow() == r.(takenIdx := takenIdx);
      traffic := Take(traffic);
      return Some(h);
    }

    /** The device returns the i-th request it holds, having written `len` bytes of it. */
    method DeviceReturns(i: nat, len: nat)
      requires Valid() && i < |held| && held[i] in chains && len <= Writable(chains[held[i]].bufs)
      modifies this`usedIdx, this`held, this`traffic, usedRing
      ensures Valid() && traffic == Give(old(traffic), i, len)
    {
      hide TablesOk;
      hide RingsOk;
      UsedRoom();
      PutSlot(i, len);
      assert TablesNow() == old(TablesNow());
    }

    lemma UsedRoom()
      requires Valid()
      ensures |traffic.held| + |traffic.done| <= size
    {
      Capacity(size, free, chains, traffic);
    }

    method PutSlot(i: nat, len: nat)
      requires Fixed() && RingsOk(RingsNow(), chains, traffic) && held == traffic.held && i < |held|
      requires |traffic.done| < size && held[i] in chains && len <= Writable(chains[held[i]].bufs)
      modifies this`usedIdx, this`held, this`traffic, usedRing
      ensures RingsOk(RingsNow(), chains, traffic) && held == traffic.held
      ensures traffic == Give(old(traffic), i, len)
    {
      ghost var r := RingsNow();
      Given(r, chains, traffic, i, len);
      var slot, e := Slot(usedIdx, size), UsedElem(held[i], len);
      usedRing[slot] := e;
      assert usedRing[..] == r.used[slot := e];
      usedIdx := Wrap16(usedIdx + 1);
      held := held[..i] + held[i + 1..];
      traffic := Give(traffic, i, len);
    }
  }

  lemma ReadsChain(n: nat, x: Tables, free: seq<nat>, chains: map<nat, Chain>, h: nat)
    requires TablesOk(n, x, free, chains) && h in chains
    ensures h < n && DeviceReads(x.t, x.l, h) == chains[h].bufs
  {
    assert Shaped(n, h, chains[h]);
    DeviceReadsRequest(x.d, x.t, x.l, chains[h]);
  }

  /** VirtQueue::new: refuses a queue already set up or too small on the device's side. */
  method Open(inUse: bool, maxSize: nat, size: nat, indirect: bool) returns (r: Result<VirtQueue>)
    requires SizeOk(size)
    ensures inUse ==> r == Err(AlreadyUsed)
    ensures !inUse && maxSize < size ==> r == Err(InvalidParam)
    ensures !inUse && maxSize >= size ==>
      r.Ok? && fresh(r.value) && r.value.Valid() && r.value.Pristine() && r.value.size == size && r.value.indirect == indirect
  {
    if inUse { return Err(AlreadyUsed); }
    if maxSize < size { return Err(InvalidParam); }
    var q := new VirtQueue(size, indirect);
    return Ok(q);
  }
}

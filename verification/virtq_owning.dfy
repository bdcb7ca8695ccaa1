/** OwningQueue (virtio-drivers-patched/src/queue/owning.rs): a virtqueue whose buffers all belong
    to the queue.  Buffer i is always offered under token i. */
module OwningQueues {
  import opened Wrappers
  import opened VirtqChains
  import opened VirtqStates
  import opened Virtqueue

  /** One buffer, for the device to write. */
  function Single(h: nat, b: Mem): Chain {
    Chain([h], [Buf(b.addr, b.len, true)], false)
  }

  /** The first n descriptors are outstanding, each with its own buffer. */
  predicate Matched(chains: map<nat, Chain>, buffers: seq<Mem>, n: nat) {
    n <= |buffers| && forall h :: h in chains ==> h < n && chains[h] == Single(h, buffers[h])
  }

  /** Allocations of one fixed, non-zero length. */
  predicate Uniform(buffers: seq<Mem>, len: nat) {
    0 < len < 0x1_0000_0000 && forall i :: 0 <= i < |buffers| ==> buffers[i].len == len
  }

  lemma MatchedWith(chains: map<nat, Chain>, buffers: seq<Mem>, n: nat, m: nat, i: nat)
    requires Matched(chains, buffers, n) && i < m <= |buffers| && n <= m
    ensures Matched(chains[i := Single(i, buffers[i])], buffers, m)
  {
  }

  lemma BackAgain(chains: map<nat, Chain>, buffers: seq<Mem>, n: nat, i: nat)
    requires Matched(chains, buffers, n) && i in chains
    ensures i < n <= |buffers| && Matched(chains - {i}, buffers, n)
    ensures (chains - {i})[i := Single(i, buffers[i])] == chains
  {
  }

  predicate Counts(free: seq<nat>, from: nat, to: nat) {
    |free| == to - from && forall k :: 0 <= k < |free| ==> free[k] == from + k
  }

  /** Offers every buffer in turn to a fresh queue; the tokens come out in order. */
  method OfferAll(q: VirtQueue, bufs: seq<Mem>, len: nat)
    requires q.Valid() && q.Pristine() && |bufs| == q.size && Uniform(bufs, len)
    modifies q, q.shadow, q.table, q.lists, q.availRing
    ensures q.Valid() && q.free == [] && Matched(q.chains, bufs, q.size)
  {
    hide VirtQueue.Valid;
    assert Counts(q.free, 0, q.size) && Matched(q.chains, bufs, 0);
    for i := 0 to q.size
      invariant q.Valid() && Counts(q.free, i, q.size) && Matched(q.chains, bufs, i)
    {
      MatchedWith(q.chains, bufs, i, i + 1, i);
      hide Matched;
      var token := q.AddOne(bufs[i]);
      assert token == Ok(i);
    }
  }

  class OwningQueue {
    const queue: VirtQueue
    const bufferSize: nat
    var buffers: seq<Mem>

    /** Between polls every descriptor is outstanding and holds the buffer of its own number. */
    ghost predicate Valid()
      reads this, queue, queue.shadow, queue.table, queue.lists, queue.availRing, queue.usedRing
    {
      && queue.Valid() && |buffers| == queue.size && Uniform(buffers, bufferSize)
      && queue.free == [] && Matched(queue.chains, buffers, queue.size)
    }

    constructor (q: VirtQueue, bufs: seq<Mem>, bufferSize: nat)
      requires q.Valid() && q.Pristine() && |bufs| == q.size && Uniform(bufs, bufferSize)
      modifies q, q.shadow, q.table, q.lists, q.availRing
      ensures Valid() && queue == q && buffers == bufs && this.bufferSize == bufferSize
    {
      queue := q;
      this.bufferSize := bufferSize;
      buffers := bufs;
      new;
      OfferAll(q, bufs, bufferSize);
    }

    /** Takes the next returned buffer out of the queue. */
    method PopBuffer() returns (r: Option<(nat, nat)>)
      requires Valid()
      modifies queue, queue.shadow, queue.table, queue.lists
      ensures old(queue.traffic.done) == [] ==> r == None && Valid() && queue.traffic == old(queue.traffic) && queue.chains == old(queue.chains)
      ensures old(queue.traffic.done) != [] ==>
        && r == Some((old(queue.traffic.done)[0].len, old(queue.traffic.done)[0].id))
        && r.value.0 <= bufferSize
        && queue.Valid() && queue.free == [r.value.1] && r.value.1 < queue.size
        && r.value.1 in old(queue.chains) && queue.chains == old(queue.chains) - {r.value.1} && queue.traffic == Pop(old(queue.traffic))
    {
      var token := queue.PeekUsed();
      if token == None { return None; }
      queue.FirstIsOurs();
      hide TablesOk;
      hide RingsOk;
      assert queue.chains[token.value] == Single(token.value, buffers[token.value]);
      assert Writable(queue.chains[token.value].bufs) == bufferSize;
      assert Request([], [buffers[token.value]]) == queue.chains[token.value].bufs;
      var len := queue.PopUsed(token.value, [], [buffers[token.value]]);
      return Some((len.value, token.value));
    }

    lemma Fits(index: nat)
      requires queue.Valid() && |buffers| == queue.size && Uniform(buffers, bufferSize)
      requires queue.free == [index] && Matched(queue.chains, buffers, queue.size)
      ensures index < |buffers| && Sendable([buffers[index]]) && queue.free[1..] == []
      ensures Single(index, buffers[index]) == Chain([index], [Buf(buffers[index].addr, buffers[index].len, true)], false)
      ensures Matched(queue.chains[index := Single(index, buffers[index])], buffers, queue.size)
    {
      queue.FreeBelow();
      hide VirtQueue.Valid;
      MatchedWith(queue.chains, buffers, queue.size, queue.size, index);
    }

    /** Offers buffer `index` again; its token is `index` again. */
    method AddBuffer(index: nat)
      requires queue.Valid() && |buffers| == queue.size && Uniform(buffers, bufferSize)
      requires queue.free == [index] && Matched(queue.chains, buffers, queue.size)
      modifies queue, queue.shadow, queue.table, queue.lists, queue.availRing
      ensures Valid() && queue.traffic == Offer(old(queue.traffic), index)
      ensures queue.chains == old(queue.chains)[index := Single(index, buffers[index])]
    {
      Fits(index);
      hide Matched, Uniform, Single, Sendable, Offer, VirtQueue.Valid, VirtQueue.Fixed;
      var token := queue.AddOne(buffers[index]);
      assert token == Ok(index);
    }

    /** Hands the next returned buffer to the handler, whose outcome is `handled`, and offers the
        buffer again under the same token, also when the handler fails. */
    method Poll(handled: Result<Option<nat>>) returns (r: Result<Option<nat>>)
      requires Valid()
      modifies queue, queue.shadow, queue.table, queue.lists, queue.availRing
      ensures Valid() && queue.chains == old(queue.chains)
      ensures var q := old(queue.traffic);
        if q.done == [] then r == Ok(None) && queue.traffic == q
        else r == handled && queue.traffic == Offer(Pop(q), q.done[0].id)
    {
      hide VirtQueue.Valid;
      var popped := PopBuffer();
      if popped == None { return Ok(None); }
      BackAgain(old(queue.chains), buffers, queue.size, popped.value.1);
      AddBuffer(popped.value.1);
      return handled;
    }
  }

  /** What can happen to a queue in service: the device takes a request, or returns the i-th it
      holds with at most a buffer's length written, or the driver polls and its handler succeeds
      or fails. */
  datatype Event = Takes | Returns(i: nat, len: nat) | Polls(handled: Result<Option<nat>>)

  method Happens(o: OwningQueue, e: Event)
    requires o.Valid()
    modifies o.queue, o.queue.shadow, o.queue.table, o.queue.lists, o.queue.availRing, o.queue.usedRing
    ensures o.Valid()
  {
    hide TablesOk;
    hide RingsOk;
    var q := o.queue;
    if e.Polls? {
      var _ := o.Poll(e.handled);
    } else if e.Takes? {
      var _ := q.DeviceTakes();
    } else if e.i < |q.held| && e.len <= o.bufferSize {
      q.HeldIsOurs(e.i);
      var id := q.held[e.i];
      assert q.chains[id] == Single(id, o.buffers[id]);
      assert Writable(q.chains[id].bufs) == o.bufferSize;
      q.DeviceReturns(e.i, e.len);
    }
  }

  /** Over any sequence of events, of any length, every buffer stays under its own token, so no
      buffer is ever offered twice: behind token i the device finds buffer i, to write.  Events that
      cannot happen are skipped. */
  method Serve(o: OwningQueue, events: seq<Event>)
    requires o.Valid()
    modifies o.queue, o.queue.shadow, o.queue.table, o.queue.lists, o.queue.availRing, o.queue.usedRing
    ensures o.Valid()
    ensures forall i :: 0 <= i < o.queue.size ==>
      && i in o.queue.chains && o.queue.chains[i].idx == [i]
      && DeviceReads(o.queue.table[..], o.queue.lists[..], i) == [Buf(o.buffers[i].addr, o.buffers[i].len, true)]
  {
    for n := 0 to |events|
      invariant o.Valid()
    {
      Happens(o, events[n]);
    }
    AllOut(o.queue.size, o.queue.free, o.queue.chains);
    forall i | 0 <= i < o.queue.size ensures DeviceReads(o.queue.table[..], o.queue.lists[..], i) == [Buf(o.buffers[i].addr, o.buffers[i].len, true)] {
      ReadsChain(o.queue.size, o.queue.TablesNow(), o.queue.free, o.queue.chains, i);
    }
  }

  lemma AllOut(n: nat, free: seq<nat>, chains: map<nat, Chain>)
    requires Partition(n, free, chains) && free == [] && forall h :: h in chains ==> chains[h].idx == [h]
    ensures forall i :: 0 <= i < n ==> i in chains
  {
    forall i | 0 <= i < n ensures i in chains {
      assert Covered(free, chains, i);
    }
  }
}

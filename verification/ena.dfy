/** The ENA network device (src/net/ena/device.rs): receive posting, receive, transmit and the
    reaping of transmit completions, against a device that completes each posted receive buffer
    once, in any order, and transmits in order. */
module Ena {
  import opened Wrappers
  import opened RingSlots
  import opened EnaRings

  datatype RxDesc = RxDesc(id: nat, phase: nat)
  datatype TxDesc = TxDesc(buf: nat, len: nat, phase: nat)

  function Ids(s: seq<RxDesc>): seq<nat> {
    seq(|s|, i requires 0 <= i < |s| => s[i].id)
  }

  function DoneIds(s: seq<Comp>): seq<nat> {
    seq(|s|, i requires 0 <= i < |s| => s[i].id)
  }

  /** Where the receive buffers are: posted and not yet fetched, held by the device, completed. */
  datatype RxTraffic = RxTraffic(posted: nat, read: nat, waiting: seq<RxDesc>, held: seq<nat>, done: seq<Comp>)

  ghost function Buffers(q: RxTraffic): multiset<nat> {
    multiset(Ids(q.waiting)) + multiset(q.held) + multiset(DoneIds(q.done))
  }

  /** Each of the n buffers is in exactly one place, except those in `out`. */
  ghost predicate EachOnce(q: RxTraffic, n: nat, out: set<nat>) {
    forall id: nat :: Buffers(q)[id] == if id < n && id !in out then 1 else 0
  }

  lemma Room(q: RxTraffic, n: nat, out: set<nat>)
    requires EachOnce(q, n, out)
    ensures |q.waiting| + |q.held| + |q.done| <= n
  {
    Pigeonhole(Buffers(q), n);
  }

  lemma {:induction false} RoomLeft(m: multiset<nat>, n: nat, id: nat)
    requires id < n && id !in m && forall x :: x in m ==> x < n && m[x] <= 1
    ensures |m| < n
  {
    Pigeonhole(m + multiset{id}, n);
  }

  function Post(q: RxTraffic, d: RxDesc): RxTraffic {
    q.(posted := q.posted + 1, waiting := q.waiting + [d])
  }

  function Fetch(q: RxTraffic): RxTraffic
    requires q.waiting != []
  {
    q.(waiting := q.waiting[1..], held := q.held + [q.waiting[0].id])
  }

  function Complete(q: RxTraffic, i: nat, e: Comp): RxTraffic
    requires i < |q.held|
  {
    q.(held := q.held[..i] + q.held[i + 1..], done := q.done + [e])
  }

  function Read(q: RxTraffic): RxTraffic
    requires q.done != []
  {
    q.(read := q.read + 1, done := q.done[1..])
  }

  lemma PostOnce(q: RxTraffic, n: nat, out: set<nat>, d: RxDesc)
    requires EachOnce(q, n, out) && d.id < n && d.id in out
    ensures EachOnce(Post(q, d), n, out - {d.id}) && |q.waiting| + |q.held| + |q.done| < n
  {
    assert Ids(q.waiting + [d]) == Ids(q.waiting) + [d.id];
    assert Buffers(Post(q, d)) == Buffers(q) + multiset{d.id};
    RoomLeft(Buffers(q), n, d.id);
  }

  lemma FetchOnce(q: RxTraffic, n: nat)
    requires EachOnce(q, n, {}) && q.waiting != []
    ensures EachOnce(Fetch(q), n, {})
  {
    assert Ids(q.waiting) == [q.waiting[0].id] + Ids(q.waiting[1..]);
    assert Buffers(Fetch(q)) == Buffers(q);
  }

  lemma CompleteOnce(q: RxTraffic, n: nat, i: nat, e: Comp)
    requires EachOnce(q, n, {}) && i < |q.held| && e.id == q.held[i]
    ensures EachOnce(Complete(q, i, e), n, {})
  {
    assert q.held == q.held[..i] + [q.held[i]] + q.held[i + 1..];
    assert DoneIds(q.done + [e]) == DoneIds(q.done) + [e.id];
    assert Buffers(Complete(q, i, e)) == Buffers(q);
  }

  lemma ReadOnce(q: RxTraffic, n: nat)
    requires EachOnce(q, n, {}) && q.done != []
    ensures q.done[0].id < n && EachOnce(Read(q), n, {q.done[0].id})
  {
    assert DoneIds(q.done) == [q.done[0].id] + DoneIds(q.done[1..]);
    assert Buffers(q) == Buffers(Read(q)) + multiset{q.done[0].id};
    assert Buffers(q)[q.done[0].id] > 0;
  }

  /** The frame of the j-th entry in flight sits in the buffer of its own slot and carries the phase of
      its lap, by which the device tells it from what was there before. */
  predicate InPlace(inFlight: seq<TxDesc>, first: nat, depth: nat)
    requires depth > 0
  {
    forall j :: 0 <= j < |inFlight| ==> inFlight[j].buf == Slot(first + j, depth) && inFlight[j].phase == PhaseAt(first + j, depth)
  }

  lemma InPlacePush(inFlight: seq<TxDesc>, first: nat, depth: nat, d: TxDesc)
    requires depth > 0 && InPlace(inFlight, first, depth) && d.buf == Slot(first + |inFlight|, depth) && d.phase == PhaseAt(first + |inFlight|, depth)
    ensures InPlace(inFlight + [d], first, depth)
  {
  }

  lemma InPlacePop(inFlight: seq<TxDesc>, first: nat, depth: nat)
    requires depth > 0 && InPlace(inFlight, first, depth) && inFlight != []
    ensures InPlace(inFlight[1..], first + 1, depth)
  {
    var s := inFlight[1..];
    forall j | 0 <= j < |s| ensures s[j].buf == Slot(first + 1 + j, depth) && s[j].phase == PhaseAt(first + 1 + j, depth) {
      assert inFlight[j + 1].buf == Slot(first + (j + 1), depth) && inFlight[j + 1].phase == PhaseAt(first + (j + 1), depth);
    }
  }

  /** The j-th descriptor waiting carries the phase of its lap. */
  predicate Phased(waiting: seq<RxDesc>, first: nat, depth: nat)
    requires depth > 0
  {
    forall j :: 0 <= j < |waiting| ==> waiting[j].phase == PhaseAt(first + j, depth)
  }

  lemma PhasedPop(waiting: seq<RxDesc>, first: nat, depth: nat)
    requires depth > 0 && Phased(waiting, first, depth) && waiting != []
    ensures Phased(waiting[1..], first + 1, depth)
  {
    forall j | 0 <= j < |waiting| - 1 ensures waiting[1..][j].phase == PhaseAt(first + 1 + j, depth) {
      assert waiting[j + 1].phase == PhaseAt(first + (j + 1), depth);
    }
  }

  lemma PhasedPush(waiting: seq<RxDesc>, first: nat, depth: nat, d: RxDesc)
    requires depth > 0 && Phased(waiting, first, depth) && d.phase == PhaseAt(first + |waiting|, depth)
    ensures Phased(waiting + [d], first, depth)
  {
  }

  predicate AtLeast(id: nat, i: nat) {
    i <= id
  }

  ghost function From(i: nat, n: nat): set<nat> {
    set id: nat | id < n && AtLeast(id, i)
  }

  lemma EmptyRx(n: nat)
    ensures EachOnce(RxTraffic(0, 0, [], [], []), n, From(0, n))
  {
    forall id: nat | id < n ensures id in From(0, n) { assert AtLeast(id, 0); }
  }

  class EnaDevice {
    const depth: nat
    const rxSq: array<RxDesc>
    const rxCq: array<Comp>
    const txSq: array<TxDesc>
    const txCq: array<Comp>
    var rxSqTail: nat
    var rxSqPhase: nat
    var rxCqHead: nat
    var rxCqPhase: nat
    var txSqTail: nat
    var txSqPhase: nat
    var txCqHead: nat
    var txCqPhase: nat
    var txNextToComp: nat
    // The device's own positions in the completion rings.
    var devRxHead: nat
    var devRxPhase: nat
    var devTxHead: nat
    var devTxPhase: nat

    ghost var rx: RxTraffic
    ghost var txReaped: nat
    ghost var inFlight: seq<TxDesc>   // posted and not yet reaped
    ghost var txDone: seq<Comp>       // completed and not yet reaped

    ghost predicate Fixed() {
      SizeOk(depth) && rxSq.Length == rxCq.Length == txSq.Length == txCq.Length == depth && rxCq != txCq
    }

    ghost predicate RxOk(out: set<nat>)
      reads this, rxSq, rxCq
    {
      && Fixed() && rxSqPhase < 2 && rxCqPhase < 2
      && SqOk(rxSq[..], rxSqTail, rxSqPhase, rx.posted, rx.waiting)
      && CqOk(rxCq[..], rxCqHead, rxCqPhase, rx.read, rx.done)
      && EachOnce(rx, depth - 1, out) && |rx.waiting| <= rx.posted && Phased(rx.waiting, rx.posted - |rx.waiting|, depth)
      && devRxHead == Slot(rx.read + |rx.done|, depth) && devRxPhase == PhaseAt(rx.read + |rx.done|, depth)
    }

    ghost predicate TxOk()
      reads this, txSq, txCq
    {
      && Fixed() && txSqPhase < 2 && txCqPhase < 2
      && SqOk(txSq[..], txSqTail, txSqPhase, txReaped + |inFlight|, inFlight)
      && CqOk(txCq[..], txCqHead, txCqPhase, txReaped, txDone)
      && txNextToComp == Wrap16(txReaped)
      && |txDone| <= |inFlight| && InPlace(inFlight, txReaped, depth)
      && devTxHead == Slot(txReaped + |txDone|, depth) && devTxPhase == PhaseAt(txReaped + |txDone|, depth)
    }

    ghost predicate Valid()
      reads this, rxSq, rxCq, txSq, txCq
    {
      RxOk({}) && TxOk()
    }

    /** EnaDevice::new: fresh rings, every receive buffer posted. */
    constructor (depth: nat)
      requires SizeOk(depth)
      ensures Valid() && this.depth == depth && inFlight == [] && rx.done == []
      ensures fresh(rxSq) && fresh(rxCq) && fresh(txSq) && fresh(txCq)
    {
      this.depth := depth;
      rxSq := new RxDesc[depth](_ => RxDesc(0, 0));
      rxCq := new Comp[depth](_ => Comp(0, 0, 0));
      txSq := new TxDesc[depth](_ => TxDesc(0, 0, 0));
      txCq := new Comp[depth](_ => Comp(0, 0, 0));
      rxSqTail, rxSqPhase, rxCqHead, rxCqPhase := 0, 1, 0, 1;
      txSqTail, txSqPhase, txCqHead, txCqPhase := 0, 1, 0, 1;
      txNextToComp, devRxHead, devRxPhase, devTxHead, devTxPhase := 0, 0, 1, 0, 1;
      rx := RxTraffic(0, 0, [], [], []);
      txReaped, inFlight, txDone := 0, [], [];
      new;
      hide RxOk;
      hide TxOk;
      hide Slot, PhaseAt, SizeOk;
      FreshRx();
      PostAll();
      FreshTx();
    }

    lemma FreshRx()
      requires Fixed() && rxSqTail == 0 && rxSqPhase == 1 && rxCqHead == 0 && rxCqPhase == 1 && devRxHead == 0 && devRxPhase == 1
      requires rx == RxTraffic(0, 0, [], [], []) && forall s :: 0 <= s < depth ==> rxCq[s].phase == 0
      ensures depth > 0 && RxOk(From(0, depth - 1))
    {
      EmptySq(rxSq[..]);
      EmptyCq(rxCq[..]);
      EmptyRx(depth - 1);
    }

    lemma FreshTx()
      requires Fixed() && txSqTail == 0 && txSqPhase == 1 && txCqHead == 0 && txCqPhase == 1 && devTxHead == 0 && devTxPhase == 1
      requires txNextToComp == 0 && txReaped == 0 && inFlight == [] && txDone == []
      requires forall s :: 0 <= s < depth ==> txCq[s].phase == 0
      ensures TxOk()
    {
      EmptySq(txSq[..]);
      EmptyCq(txCq[..]);
    }

    /** Posts the receive buffers in order. */
    method PostAll()
      requires depth > 0 && RxOk(From(0, depth - 1)) && rx.done == []
      modifies this`rxSqTail, this`rxSqPhase, this`rx, rxSq
      ensures RxOk({}) && rx.done == []
    {
      hide RxOk;
      for i := 0 to depth - 1
        invariant RxOk(From(i, depth - 1)) && rx.done == []
      {
        assert AtLeast(i, i);
        PostRx(i, From(i, depth - 1));
        assert From(i, depth - 1) - {i} == From(i + 1, depth - 1);
      }
      assert From(depth - 1, depth - 1) == {};
    }

    /** post_rx_desc: the buffer must be out of the rings; it is in them exactly once afterwards. */
    method PostRx(id: nat, ghost out: set<nat>)
      requires RxOk(out) && id in out && id < depth - 1
      modifies this`rxSqTail, this`rxSqPhase, this`rx, rxSq
      ensures RxOk(out - {id}) && rx == Post(old(rx), RxDesc(id, old(rxSqPhase)))
    {
      hide PhaseAt;
      hide Lap;
      hide Slot;
      hide SqOk;
      hide CqOk;
      hide EachOnce;
      var d := RxDesc(id, rxSqPhase);
      SqPhase(rxSq[..], rxSqTail, rxSqPhase, rx.posted, rx.waiting);
      PhasedPush(rx.waiting, rx.posted - |rx.waiting|, depth, d);
      hide Phased;
      PostOnce(rx, depth - 1, out, d);
      SqPost(rxSq[..], rxSqTail, rxSqPhase, rx.posted, rx.waiting, d);
      ghost var ring := rxSq[..];
      var slot := Slot(rxSqTail, depth);
      rxSq[slot] := d;
      assert rxSq[..] == ring[slot := d];
      var (t, p) := SqAdvance(rxSqTail, rxSqPhase, depth);
      rxSqTail, rxSqPhase := t, p;
      rx := Post(rx, d);
    }

    /** receive: takes the oldest completion, if the device has written one, and posts its buffer
        again. */
    method Receive() returns (r: Option<(nat, nat)>)
      requires RxOk({})
      modifies this`rxSqTail, this`rxSqPhase, this`rxCqHead, this`rxCqPhase, this`rx, rxSq
      ensures RxOk({})
      ensures if old(rx.done) == [] then r == None && rx == old(rx)
              else r == Some((old(rx.done)[0].id, old(rx.done)[0].len))
                   && rx == Post(Read(old(rx)), RxDesc(old(rx.done)[0].id, old(rxSqPhase)))
    {
      hide PhaseAt;
      hide Lap;
      hide Slot;
      hide SqOk;
      hide CqOk;
      hide EachOnce;
      CqReady(rxCq[..], rxCqHead, rxCqPhase, rx.read, rx.done);
      var e := rxCq[rxCqHead];
      if !EntryReady(e.phase, rxCqPhase) { return None; }
      CqRead(rxCq[..], rxCqHead, rxCqPhase, rx.read, rx.done);
      ReadOnce(rx, depth - 1);
      var (h, p) := CqAdvance(rxCqHead, rxCqPhase, depth);
      rxCqHead, rxCqPhase := h, p;
      assert rx.read + 1 + |rx.done[1..]| == rx.read + |rx.done|;
      rx := Read(rx);
      PostRx(e.id, {e.id});
      assert {e.id} - {e.id} == {};
      return Some((e.id, e.len));
    }

    /** The device fetches the next posted receive descriptor. */
    ghost method DeviceFetches()
      requires RxOk({}) && rx.waiting != []
      modifies this`rx
      ensures RxOk({}) && rx == Fetch(old(rx))
    {
      hide PhaseAt, Lap, Slot, SqOk, CqOk, EachOnce, Phased;
      SqRetire(rxSq[..], rxSqTail, rxSqPhase, rx.posted, rx.waiting);
      FetchOnce(rx, depth - 1);
      PhasedPop(rx.waiting, rx.posted - |rx.waiting|, depth);
      rx := Fetch(rx);
    }

    /** The device completes the i-th receive buffer it holds. */
    method DeviceReceives(id: nat, len: nat, ghost i: nat)
      requires RxOk({}) && i < |rx.held| && id == rx.held[i]
      modifies this`rx, this`devRxHead, this`devRxPhase, rxCq
      ensures RxOk({}) && rx == Complete(old(rx), i, Comp(old(devRxPhase), id, len))
    {
      hide PhaseAt;
      hide Lap;
      hide Slot;
      hide SqOk;
      hide CqOk;
      hide EachOnce;
      var e := Comp(devRxPhase, id, len);
      Room(rx, depth - 1, {});
      CqWrite(rxCq[..], rxCqHead, rxCqPhase, rx.read, rx.done, e);
      CompleteOnce(rx, depth - 1, i, e);
      CqFollows(rx.read + |rx.done|, depth);
      assert rx.read + |rx.done + [e]| == rx.read + |rx.done| + 1;
      ghost var ring := rxCq[..];
      rxCq[devRxHead] := e;
      assert rxCq[..] == ring[devRxHead := e];
      var (h, p) := CqAdvance(devRxHead, devRxPhase, depth);
      devRxHead, devRxPhase := h, p;
      rx := Complete(rx, i, e);
    }

    // ---- transmit ----

    /** drain_tx: reaps every completion the device has written, and no other. */
    method DrainTx()
      requires TxOk()
      modifies this`txNextToComp, this`txCqHead, this`txCqPhase, this`inFlight, this`txDone, this`txReaped
      ensures TxOk() && txDone == [] && inFlight == old(inFlight)[|old(txDone)|..]
    {
      ghost var n := 0;
      while true
        invariant TxOk() && n <= |old(txDone)| && txDone == old(txDone)[n..] && inFlight == old(inFlight)[n..]
        decreases |txDone|
      {
        CqReady(txCq[..], txCqHead, txCqPhase, txReaped, txDone);
        if !EntryReady(txCq[txCqHead].phase, txCqPhase) { break; }
        Reap();
        n := n + 1;
      }
    }

    method Reap()
      requires TxOk() && txDone != []
      modifies this`txNextToComp, this`txCqHead, this`txCqPhase, this`inFlight, this`txDone, this`txReaped
      ensures TxOk() && txDone == old(txDone)[1..] && inFlight == old(inFlight)[1..]
    {
      hide PhaseAt;
      hide Lap;
      hide Slot;
      hide SqOk;
      hide CqOk;
      hide EachOnce;
      CqRead(txCq[..], txCqHead, txCqPhase, txReaped, txDone);
      SqRetire(txSq[..], txSqTail, txSqPhase, txReaped + |inFlight|, inFlight);
      InPlacePop(inFlight, txReaped, depth);
      WrapStep(txReaped);
      assert txReaped + 1 + |inFlight[1..]| == txReaped + |inFlight| && txReaped + 1 + |txDone[1..]| == txReaped + |txDone|;
      hide InPlace;
      txNextToComp := Wrap16(txNextToComp + 1);
      var (h, p) := CqAdvance(txCqHead, txCqPhase, depth);
      txCqHead, txCqPhase := h, p;
      inFlight, txDone, txReaped := inFlight[1..], txDone[1..], txReaped + 1;
    }

    function TxFreeSlots(): (n: nat)
      requires TxOk()
      reads this, txSq, txCq
      ensures n == depth - 1 - |inFlight|
    {
      FreeSlotsExact(txReaped + |inFlight|, txReaped, depth);
      FreeSlots(txSqTail, txNextToComp, depth)
    }

    /** The buffer the next frame is built in belongs to no frame in flight. */
    lemma FillsFreeBuffer(j: nat)
      requires TxOk() && j < |inFlight|
      ensures inFlight[j].buf != Slot(txSqTail, depth)
    {
      hide CqOk;
      hide PhaseAt;
      SqFollows(txReaped + |inFlight|, depth);
      SlotsDiffer(txReaped + j, txReaped + |inFlight|, depth);
    }

    /** TxToken::consume: the frame is built in the buffer of the tail slot, and dropped when the
        ring is full.  Either way that buffer is in no frame in flight while it is written. */
    method Transmit(len: nat) returns (buf: nat, sent: bool)
      requires TxOk()
      modifies this`txNextToComp, this`txCqHead, this`txCqPhase, this`txSqTail, this`txSqPhase
      modifies this`inFlight, this`txDone, this`txReaped, txSq
      ensures TxOk() && txDone == []
      ensures var kept := old(inFlight)[|old(txDone)|..];
        && (forall j :: 0 <= j < |kept| ==> kept[j].buf != buf)
        && (sent <==> |kept| < depth - 1)
        && (if sent then |inFlight| == |kept| + 1 && inFlight[..|kept|] == kept && inFlight[|kept|].buf == buf && inFlight[|kept|].len == len % 0x1_0000
            else inFlight == kept)
    {
      DrainTx();
      buf := Slot(txSqTail, depth);
      forall j | 0 <= j < |inFlight| ensures inFlight[j].buf != buf { FillsFreeBuffer(j); }
      if TxFreeSlots() == 0 { return buf, false; }
      PostTx(TxDesc(buf, len % 0x1_0000, txSqPhase));
      return buf, true;
    }

    method PostTx(d: TxDesc)
      requires TxOk() && |inFlight| + 1 < depth && d.buf == Slot(txSqTail, depth) && d.phase == txSqPhase
      modifies this`txSqTail, this`txSqPhase, this`inFlight, txSq
      ensures TxOk() && txDone == old(txDone) && inFlight == old(inFlight) + [d]
    {
      hide PhaseAt;
      hide Lap;
      hide Slot;
      hide SqOk;
      hide CqOk;
      hide EachOnce;
      assert d.phase == PhaseAt(txReaped + |inFlight|, depth) by { SqPhase(txSq[..], txSqTail, txSqPhase, txReaped + |inFlight|, inFlight); }
      SqPost(txSq[..], txSqTail, txSqPhase, txReaped + |inFlight|, inFlight, d);
      SqFollows(txReaped + |inFlight|, depth);
      InPlacePush(inFlight, txReaped, depth, d);
      assert txReaped + |inFlight + [d]| == txReaped + |inFlight| + 1;
      hide InPlace;
      ghost var ring := txSq[..];
      var slot := Slot(txSqTail, depth);
      txSq[slot] := d;
      assert txSq[..] == ring[slot := d];
      var (t, p) := SqAdvance(txSqTail, txSqPhase, depth);
      txSqTail, txSqPhase := t, p;
      inFlight := inFlight + [d];
    }

    /** The device completes the oldest frame not yet completed. */
    method DeviceTransmits()
      requires TxOk() && |txDone| < |inFlight|
      modifies this`txDone, this`devTxHead, this`devTxPhase, txCq
      ensures TxOk() && txDone == old(txDone) + [Comp(old(devTxPhase), 0, 0)]
    {
      hide PhaseAt;
      hide Lap;
      hide Slot;
      hide SqOk;
      hide CqOk;
      hide EachOnce;
      var e := Comp(devTxPhase, 0, 0);
      SqBound(txSq[..], txSqTail, txSqPhase, txReaped + |inFlight|, inFlight);
      CqWrite(txCq[..], txCqHead, txCqPhase, txReaped, txDone, e);
      CqFollows(txReaped + |txDone|, depth);
      assert txReaped + |txDone + [e]| == txReaped + |txDone| + 1;
      ghost var ring := txCq[..];
      txCq[devTxHead] := e;
      assert txCq[..] == ring[devTxHead := e];
      var (h, p) := CqAdvance(devTxHead, devTxPhase, depth);
      devTxHead, devTxPhase := h, p;
      txDone := txDone + [e];
    }
  }
}

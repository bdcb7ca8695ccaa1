/** Ring slots: bounded windows over unbounded counters.  Ring indices are
    16 bits wide and wrap; the queue size is a power of two, so wrapping keeps the slot. */
module RingSlots {
  predicate PowerOfTwo(n: nat) {
    n == 1 || (n > 1 && n % 2 == 0 && PowerOfTwo(n / 2))
  }

  /** A power of two that fits in 16 bits. */
  predicate SizeOk(n: nat) {
    PowerOfTwo(n) && n <= 0xFFFF
  }

  /** A smaller power of two divides a larger one. */
  lemma {:induction false} Divides(n: nat, m: nat) returns (k: nat)
    requires PowerOfTwo(n) && PowerOfTwo(m) && n <= m
    ensures m == k * n
  {
    if n == 1 {
      k := m;
    } else {
      k := Divides(n / 2, m / 2);
      assert m == 2 * (k * (n / 2)) == k * n;
    }
  }

  /** The slot of entry x in a ring of n: x & (n - 1) for a power of two, x modulo n in general. */
  function Slot(x: nat, n: nat): (s: nat)
    requires n > 0
    ensures s < n
    decreases x
  {
    if x < n then x else Slot(x - n, n)
  }

  /** Truncation to 16 bits. */
  function Wrap16(x: nat): nat {
    Slot(x, 0x1_0000)
  }

  lemma {:induction false} SlotBack(x: nat, n: nat, k: nat)
    requires n > 0
    ensures Slot(x + k * n, n) == Slot(x, n)
    decreases k
  {
    if k > 0 {
      var y := x + (k - 1) * n;
      assert x + k * n == y + n;
      SlotBack(x, n, k - 1);
    }
  }

  lemma SixteenBits()
    ensures PowerOfTwo(0x1_0000)
  {
    assert PowerOfTwo(0x10) && PowerOfTwo(0x100) && PowerOfTwo(0x1000);
  }

  /** A 16-bit range is a whole number of rounds of the ring. */
  lemma WholeRounds(x: nat, n: nat)
    requires SizeOk(n)
    ensures Slot(x + 0x1_0000, n) == Slot(x, n)
  {
    hide PowerOfTwo, Slot;
    SixteenBits();
    var k := Divides(n, 0x1_0000);
    SlotBack(x, n, k);
  }

  /** Wrapping an index to 16 bits does not change its slot. */
  lemma {:induction false} WrapKeepsSlot(x: nat, n: nat)
    requires SizeOk(n)
    ensures Slot(Wrap16(x), n) == Slot(x, n)
    decreases x
  {
    if x >= 0x1_0000 {
      WrapKeepsSlot(x - 0x1_0000, n);
      WholeRounds(x - 0x1_0000, n);
    }
  }

  lemma {:induction false} WrapStep(x: nat)
    ensures Wrap16(Wrap16(x) + 1) == Wrap16(x + 1)
    decreases x
  {
    if x >= 0x1_0000 { WrapStep(x - 0x1_0000); }
  }

  /** Counters less than n apart use different slots. */
  lemma {:induction false} SlotsDiffer(x: nat, y: nat, n: nat)
    requires 0 < y - x < n
    ensures Slot(x, n) != Slot(y, n)
    decreases x
  {
    if x >= n { SlotsDiffer(x - n, y - n, n); }
  }

  lemma WrapDiffers(x: nat, y: nat)
    requires x <= y < x + 0x1_0000
    ensures Wrap16(x) == Wrap16(y) <==> x == y
  {
    if x < y { SlotsDiffer(x, y, 0x1_0000); }
  }

  /** The entries `live`, numbered from `first`, are in their slots. */
  ghost predicate Window<T>(ring: seq<T>, first: nat, live: seq<T>)
    requires ring != []
    decreases |live|
  {
    live == [] || (ring[Slot(first, |ring|)] == live[0] && Window(ring, first + 1, live[1..]))
  }

  lemma {:induction false} WindowElsewhere<T>(ring: seq<T>, first: nat, live: seq<T>, next: nat, x: T)
    requires ring != [] && Window(ring, first, live) && first + |live| <= next < first + |ring|
    ensures Window(ring[Slot(next, |ring|) := x], first, live)
    decreases |live|
  {
    if live != [] {
      WindowElsewhere(ring, first + 1, live[1..], next, x);
      SlotsDiffer(first, next, |ring|);
    }
  }

  lemma {:induction false} WindowAppend<T>(ring: seq<T>, first: nat, live: seq<T>, x: T)
    requires ring != [] && Window(ring, first, live) && ring[Slot(first + |live|, |ring|)] == x
    ensures Window(ring, first, live + [x])
    decreases |live|
  {
    if live == [] {
      assert (live + [x])[1..] == [];
    } else {
      WindowAppend(ring, first + 1, live[1..], x);
      assert (live + [x])[1..] == live[1..] + [x];
    }
  }

  /** Writing the next slot of a window that is not full disturbs no live entry. */
  lemma WindowPush<T>(ring: seq<T>, first: nat, live: seq<T>, x: T)
    requires ring != [] && Window(ring, first, live) && |live| < |ring|
    ensures Window(ring[Slot(first + |live|, |ring|) := x], first, live + [x])
  {
    WindowElsewhere(ring, first, live, first + |live|, x);
    WindowAppend(ring[Slot(first + |live|, |ring|) := x], first, live, x);
  }

  // ---- counting ----

  lemma {:induction false} Pigeonhole(m: multiset<nat>, n: nat)
    requires forall x :: x in m ==> x < n && m[x] <= 1
    ensures |m| <= n
  {
    if n == 0 {
      assert m == multiset{};
    } else {
      var m' := m[n - 1 := 0];
      Pigeonhole(m', n - 1);
    }
  }
}

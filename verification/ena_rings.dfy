/** ENA ring arithmetic (src/net/ena/ring.rs) and what it means.  Submission indices run freely over
    16 bits, completion heads stay below the depth, and both carry a phase bit that flips once per
    lap.  Against unbounded counters, the phase tells fresh entries from stale ones for ever. */
module EnaRings {
  import opened RingSlots

  // ---- ring.rs ----

  function SqAdvance(idx: nat, phase: nat, depth: nat): (nat, nat)
    requires depth > 0 && phase < 2
  {
    var next := Wrap16(idx + 1);
    (next, if Slot(next, depth) == 0 then 1 - phase else phase)
  }

  function CqAdvance(head: nat, phase: nat, depth: nat): (nat, nat)
    requires phase < 2
  {
    if head + 1 == depth then (0, 1 - phase) else (head + 1, phase)
  }

  predicate EntryReady(descPhase: nat, expected: nat) {
    descPhase % 2 == expected % 2
  }

  function FreeSlots(tail: nat, nextToComp: nat, depth: nat): int
    requires tail < 0x1_0000 && nextToComp < 0x1_0000
  {
    depth - 1 - Wrap16(tail + 0x1_0000 - nextToComp)
  }

  // ---- laps and phases of unbounded counters ----

  function Lap(n: nat, depth: nat): nat
    requires depth > 0
    decreases n
  {
    if n < depth then 0 else 1 + Lap(n - depth, depth)
  }

  /** The phase of the n-th entry ever written: 1 in the first lap, then alternating. */
  function PhaseAt(n: nat, depth: nat): (p: nat)
    requires depth > 0
    ensures p < 2
  {
    (Lap(n, depth) + 1) % 2
  }

  /** The phase last written to slot s after n entries: 0 while it is untouched. */
  function LastPhase(n: nat, s: nat, depth: nat): (p: nat)
    requires depth > 0
    ensures p < 2
  {
    (Lap(n, depth) + if s < Slot(n, depth) then 1 else 0) % 2
  }

  lemma {:induction false} OneMore(n: nat, depth: nat)
    requires depth > 0
    ensures Slot(n + 1, depth) == if Slot(n, depth) == depth - 1 then 0 else Slot(n, depth) + 1
    ensures Lap(n + 1, depth) == Lap(n, depth) + if Slot(n, depth) == depth - 1 then 1 else 0
    decreases n
  {
    if n >= depth { OneMore(n - depth, depth); }
  }

  lemma {:induction false} WithinALap(c: nat, w: nat, depth: nat)
    requires depth > 0 && c <= w <= c + depth
    ensures
      || (Lap(w, depth) == Lap(c, depth) && Slot(c, depth) + (w - c) == Slot(w, depth))
      || (Lap(w, depth) == Lap(c, depth) + 1 && Slot(c, depth) + (w - c) == Slot(w, depth) + depth)
    decreases c
  {
    if c >= depth { WithinALap(c - depth, w - depth, depth); }
  }

  /** The entry at counter c is ready exactly when it has been written. */
  lemma ReadyIffWritten(c: nat, w: nat, depth: nat)
    requires depth > 0 && c <= w <= c + depth
    ensures EntryReady(LastPhase(w, Slot(c, depth), depth), PhaseAt(c, depth)) <==> c < w
  {
    WithinALap(c, w, depth);
  }

  lemma WriteFlips(w: nat, s: nat, depth: nat)
    requires depth > 0 && s < depth
    ensures LastPhase(w + 1, s, depth) == if s == Slot(w, depth) then PhaseAt(w, depth) else LastPhase(w, s, depth)
  {
    OneMore(w, depth);
  }

  /** A free-running 16-bit index and its phase follow the unbounded counter through every wrap. */
  lemma SqFollows(n: nat, depth: nat)
    requires SizeOk(depth)
    ensures Slot(Wrap16(n), depth) == Slot(n, depth)
    ensures SqAdvance(Wrap16(n), PhaseAt(n, depth), depth) == (Wrap16(n + 1), PhaseAt(n + 1, depth))
  {
    WrapKeepsSlot(n, depth);
    WrapKeepsSlot(n + 1, depth);
    WrapStep(n);
    OneMore(n, depth);
  }

  lemma CqFollows(n: nat, depth: nat)
    requires depth > 0
    ensures CqAdvance(Slot(n, depth), PhaseAt(n, depth), depth) == (Slot(n + 1, depth), PhaseAt(n + 1, depth))
  {
    OneMore(n, depth);
  }

  lemma {:induction false} WrapDifference(a: nat, b: nat)
    requires b <= a < b + 0x1_0000
    ensures Wrap16(Wrap16(a) + 0x1_0000 - Wrap16(b)) == a - b
    decreases b
  {
    if b >= 0x1_0000 {
      WrapDifference(a - 0x1_0000, b - 0x1_0000);
    } else if a >= 0x1_0000 {
      assert Slot(a - 0x1_0000, 0x1_0000) == a - 0x1_0000 && Slot(a - b, 0x1_0000) == a - b;
    } else {
      assert Slot(a - b, 0x1_0000) == a - b;
    }
  }

  /** free_slots is the depth minus one minus the true number of entries outstanding. */
  lemma FreeSlotsExact(posted: nat, completed: nat, depth: nat)
    requires SizeOk(depth) && completed <= posted < completed + depth
    ensures FreeSlots(Wrap16(posted), Wrap16(completed), depth) == depth - 1 - (posted - completed)
  {
    WrapDifference(posted, completed);
  }

  // ---- whole rings ----

  datatype Comp = Comp(phase: nat, id: nat, len: nat)

  /** A completion ring read up to counter `read`, with the entries `done` still unread. */
  ghost predicate CqOk(ring: seq<Comp>, head: nat, phase: nat, read: nat, done: seq<Comp>) {
    && SizeOk(|ring|) && |done| <= |ring|
    && head == Slot(read, |ring|) && phase == PhaseAt(read, |ring|)
    && Window(ring, read, done)
    && forall s :: 0 <= s < |ring| ==> ring[s].phase == LastPhase(read + |done|, s, |ring|)
  }

  /** The head entry is ready exactly when the device has an unread completion; then it is the oldest. */
  lemma CqReady(ring: seq<Comp>, head: nat, phase: nat, read: nat, done: seq<Comp>)
    requires CqOk(ring, head, phase, read, done)
    ensures head < |ring| && (EntryReady(ring[head].phase, phase) <==> done != [])
    ensures done != [] ==> ring[head] == done[0]
  {
    ReadyIffWritten(read, read + |done|, |ring|);
  }

  lemma CqRead(ring: seq<Comp>, head: nat, phase: nat, read: nat, done: seq<Comp>)
    requires CqOk(ring, head, phase, read, done) && done != []
    ensures var (h, p) := CqAdvance(head, phase, |ring|); CqOk(ring, h, p, read + 1, done[1..])
  {
    CqFollows(read, |ring|);
    assert read + 1 + |done[1..]| == read + |done|;
  }

  lemma CqWrite(ring: seq<Comp>, head: nat, phase: nat, read: nat, done: seq<Comp>, e: Comp)
    requires CqOk(ring, head, phase, read, done) && |done| < |ring| && e.phase == PhaseAt(read + |done|, |ring|)
    ensures CqOk(ring[Slot(read + |done|, |ring|) := e], head, phase, read, done + [e])
  {
    WindowPush(ring, read, done, e);
    var ring' := ring[Slot(read + |done|, |ring|) := e];
    forall s | 0 <= s < |ring| ensures ring'[s].phase == LastPhase(read + |done + [e]|, s, |ring|) {
      WriteFlips(read + |done|, s, |ring|);
    }
  }

  /** A submission ring with `posted` entries written so far, the last of them still `live`.  One
      slot is always kept empty. */
  ghost predicate SqOk<T(!new)>(ring: seq<T>, tail: nat, phase: nat, posted: nat, live: seq<T>) {
    && SizeOk(|ring|) && |live| < |ring| && |live| <= posted
    && tail == Wrap16(posted) && phase == PhaseAt(posted, |ring|)
    && Window(ring, posted - |live|, live)
  }

  lemma SqPost<T(!new)>(ring: seq<T>, tail: nat, phase: nat, posted: nat, live: seq<T>, x: T)
    requires SqOk(ring, tail, phase, posted, live) && |live| + 1 < |ring|
    ensures Slot(tail, |ring|) == Slot(posted, |ring|) < |ring|
    ensures var (t, p) := SqAdvance(tail, phase, |ring|);
      SqOk(ring[Slot(tail, |ring|) := x], t, p, posted + 1, live + [x])
  {
    hide PhaseAt;
    hide SqAdvance;
    hide Slot;
    SqFollows(posted, |ring|);
    WindowPush(ring, posted - |live|, live, x);
    assert posted + 1 - |live + [x]| == posted - |live|;
  }

  lemma SqRetire<T(!new)>(ring: seq<T>, tail: nat, phase: nat, posted: nat, live: seq<T>)
    requires SqOk(ring, tail, phase, posted, live) && live != []
    ensures SqOk(ring, tail, phase, posted, live[1..])
  {
  }

  lemma SqPhase<T(!new)>(ring: seq<T>, tail: nat, phase: nat, posted: nat, live: seq<T>)
    requires SqOk(ring, tail, phase, posted, live)
    ensures phase == PhaseAt(posted, |ring|) && |live| <= posted
  {
  }

  lemma SqBound<T(!new)>(ring: seq<T>, tail: nat, phase: nat, posted: nat, live: seq<T>)
    requires SqOk(ring, tail, phase, posted, live)
    ensures |live| < |ring|
  {
  }

  lemma EmptySq<T(!new)>(ring: seq<T>)
    requires SizeOk(|ring|)
    ensures SqOk(ring, 0, 1, 0, [])
  {
  }

  lemma EmptyCq(ring: seq<Comp>)
    requires SizeOk(|ring|) && forall s :: 0 <= s < |ring| ==> ring[s].phase == 0
    ensures CqOk(ring, 0, 1, 0, []) && Slot(0, |ring|) == 0 && PhaseAt(0, |ring|) == 1
  {
  }
}

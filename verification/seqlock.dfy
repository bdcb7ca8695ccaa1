/** The kvmclock seqlock readers (src/pvclock.rs).  The host may do any number of steps before each of
    the reader's loads: it makes the version odd, writes fields one at a time, and makes it even. */
module Seqlock {
  import opened Wrappers

  const U32: nat := 0x1_0000_0000
  const U64: nat := 0x1_0000_0000_0000_0000
  const MAX_SPINS: nat := 4096

  /** The shared page.  `ver` counts version changes without bound; the page shows it modulo 2^32.
      `log` records the fields as of each completed update. */
  datatype Host = Host(ver: nat, fields: seq<nat>, log: seq<seq<nat>>)

  datatype HostStep = Begin | Set(f: nat, x: nat) | End

  /** A step out of protocol does not happen. */
  function Step(h: Host, s: HostStep): Host {
    if s.Begin? then (if h.ver % 2 == 0 then h.(ver := h.ver + 1) else h)
    else if h.ver % 2 == 0 then h
    else if s.Set? then (if s.f < |h.fields| then h.(fields := h.fields[s.f := s.x]) else h)
    else h.(ver := h.ver + 1, log := h.log + [h.fields])
  }

  function Apply(h: Host, steps: seq<HostStep>): Host {
    if steps == [] then h else Step(Apply(h, steps[..|steps| - 1]), steps[|steps| - 1])
  }

  /** Between updates the page holds the fields of the latest one. */
  predicate HostOk(h: Host) {
    && |h.log| == h.ver / 2 + 1
    && (h.ver % 2 == 0 ==> h.log[h.ver / 2] == h.fields)
    && forall k :: 0 <= k < |h.log| ==> |h.log[k]| == |h.fields|
  }

  /** How often a batch of steps changes the version. */
  function Bumps(steps: seq<HostStep>): nat {
    if steps == [] then 0 else Bumps(steps[..|steps| - 1]) + if steps[|steps| - 1].Set? then 0 else 1
  }

  predicate Later(h: Host, h': Host) {
    && HostOk(h') && h.ver <= h'.ver && |h'.fields| == |h.fields| && h.log <= h'.log
    && (h.ver % 2 == 0 && h'.ver == h.ver ==> h'.fields == h.fields)
  }

  lemma {:induction false} ApplyLater(h: Host, steps: seq<HostStep>)
    requires HostOk(h)
    ensures Later(h, Apply(h, steps)) && Apply(h, steps).ver <= h.ver + Bumps(steps)
  {
    if steps != [] { ApplyLater(h, steps[..|steps| - 1]); }
  }

  /** The host after its moves before loads 0, ..., t - 1: the page that load t - 1 sees. */
  function At(h0: Host, moves: nat -> seq<HostStep>, t: nat): Host {
    if t == 0 then h0 else Apply(At(h0, moves, t - 1), moves(t - 1))
  }

  /** Is an attempt whose version load is load t left alone by the host: even, and the same after the
      n field loads? */
  predicate Quiet(h0: Host, moves: nat -> seq<HostStep>, n: nat, t: nat) {
    At(h0, moves, t + 1).ver % 2 == 0 && At(h0, moves, t + n + 2).ver == At(h0, moves, t + 1).ver
  }

  /** The version load of attempt k: one load after an odd version, n + 2 after a changed one. */
  function Start(h0: Host, moves: nat -> seq<HostStep>, n: nat, k: nat): nat {
    if k == 0 then 0
    else
      var t := Start(h0, moves, n, k - 1);
      if At(h0, moves, t + 1).ver % 2 == 0 then t + n + 2 else t + 1
  }

  /** Is attempt k the first that is left alone? */
  ghost predicate FirstQuiet(h0: Host, moves: nat -> seq<HostStep>, n: nat, k: nat) {
    && Quiet(h0, moves, n, Start(h0, moves, n, k))
    && forall j: nat :: j < k ==> !Quiet(h0, moves, n, Start(h0, moves, n, j))
  }

  /** A read taken in one instant: the page at the version load of the first attempt left alone. */
  ghost predicate Snapshot(h0: Host, moves: nat -> seq<HostStep>, n: nat, r: Option<seq<nat>>) {
    if r == None then forall j: nat :: j < 4096 ==> !Quiet(h0, moves, n, Start(h0, moves, n, j))
    else exists k: nat :: k < 4096 && |r.value| == n && FirstQuiet(h0, moves, n, k) && r.value == At(h0, moves, Start(h0, moves, n, k) + 1).fields
  }

  /** A host that leaves the page alone from the first load to the last is read at once. */
  lemma StillHostIsRead(h0: Host, moves: nat -> seq<HostStep>, n: nat, r: Option<seq<nat>>)
    requires Snapshot(h0, moves, n, r) && At(h0, moves, 1).ver % 2 == 0 && At(h0, moves, n + 2).ver == At(h0, moves, 1).ver
    ensures r == Some(At(h0, moves, 1).fields)
  {
    assert Start(h0, moves, n, 0) == 0;
    assert Quiet(h0, moves, n, Start(h0, moves, n, 0));
  }

  /** The version changes before loads lo, lo + 1, ..., hi - 1. */
  function BumpsFrom(moves: nat -> seq<HostStep>, lo: nat, hi: nat): nat
    decreases hi - lo
  {
    if lo >= hi then 0 else Bumps(moves(lo)) + BumpsFrom(moves, lo + 1, hi)
  }

  lemma {:induction false} BumpsSplit(moves: nat -> seq<HostStep>, lo: nat, hi: nat)
    requires lo <= hi
    ensures BumpsFrom(moves, lo, hi + 1) == BumpsFrom(moves, lo, hi) + Bumps(moves(hi))
    decreases hi - lo
  {
    if lo < hi { BumpsSplit(moves, lo + 1, hi); }
  }

  /** Version changes between a version load before load t and the one after n field loads. */
  function Bracket(moves: nat -> seq<HostStep>, t: nat, n: nat): nat {
    BumpsFrom(moves, t, t + n + 1)
  }

  /** No bracket sees 2^31 updates. */
  ghost predicate Unhurried(moves: nat -> seq<HostStep>, n: nat) {
    forall t: nat :: Bracket(moves, t, n) < U32
  }

  lemma SameVersion(a: nat, b: nat)
    requires a <= b < a + U32 && a % U32 == b % U32
    ensures a == b
  {
  }

  lemma EvenVersion(a: nat)
    ensures a % U32 % 2 == a % 2
  {
  }

  lemma LaterTrans(a: Host, b: Host, c: Host)
    requires Later(a, b) && Later(b, c)
    ensures Later(a, c)
  {
  }

  /** The loads after a version load: the fields one by one, with the host moving before each, and
      the version again.  If the version has not changed, neither has any field. */
  method ReadFields(ghost h0: Host, h1: Host, moves: nat -> seq<HostStep>, t1: nat, n: nat) returns (got: seq<nat>, h: Host)
    requires HostOk(h1) && h1.ver % 2 == 0 && |h1.fields| == n && h1 == At(h0, moves, t1)
    ensures Later(h1, h) && h.ver <= h1.ver + Bracket(moves, t1, n) && h == At(h0, moves, t1 + n + 1)
    ensures h.ver == h1.ver ==> got == h1.fields
  {
    hide Apply;
    hide Bumps;
    h, got := h1, [];
    for f := 0 to n
      invariant Later(h1, h) && |got| == f && h.ver <= h1.ver + BumpsFrom(moves, t1, t1 + f) && h == At(h0, moves, t1 + f)
      invariant h.ver == h1.ver ==> got == h1.fields[..f]
    {
      ghost var was := h;
      ApplyLater(h, moves(t1 + f));
      BumpsSplit(moves, t1, t1 + f);
      h := Apply(h, moves(t1 + f));
      LaterTrans(h1, was, h);
      got := got + [h.fields[f]];
    }
    ghost var was := h;
    ApplyLater(h, moves(t1 + n));
    BumpsSplit(moves, t1, t1 + n);
    h := Apply(h, moves(t1 + n));
    LaterTrans(h1, was, h);
  }

  /** One seqlock read of n fields.  Its field-by-field loads under a 32-bit version return what a
      read in one instant would: the fields of the first attempt the host leaves alone, None when
      it leaves none alone.  What is returned is one completed update, no older than the call. */
  method Read(h0: Host, moves: nat -> seq<HostStep>, n: nat) returns (r: Option<seq<nat>>, h: Host)
    requires HostOk(h0) && |h0.fields| == n && Unhurried(moves, n)
    ensures Later(h0, h) && Snapshot(h0, moves, n, r)
    ensures r.Some? ==> exists k :: h0.ver / 2 <= k < |h.log| && r.value == h.log[k]
  {
    hide Apply, At, Quiet;
    h := h0;
    var t: nat := 0;
    AtStep(h0, moves, 0);
    for spin := 0 to MAX_SPINS
      invariant Later(h0, h) && h == At(h0, moves, t) && t == Start(h0, moves, n, spin)
      invariant forall j: nat :: j < spin ==> !Quiet(h0, moves, n, Start(h0, moves, n, j))
    {
      ghost var was := h;
      r, h, t := Attempt(h0, h, moves, t, n);
      LaterTrans(h0, was, h);
      if r.Some? {
        assert FirstQuiet(h0, moves, n, spin);
        return r, h;
      }
    }
    return None, h;
  }

  /** One turn of the loop, from the version load t. */
  method Attempt(ghost h0: Host, h: Host, moves: nat -> seq<HostStep>, t: nat, n: nat)
    returns (r: Option<seq<nat>>, h': Host, t': nat)
    requires HostOk(h) && |h.fields| == n && h == At(h0, moves, t) && Unhurried(moves, n)
    ensures Later(h, h') && h' == At(h0, moves, t') && t' == (if At(h0, moves, t + 1).ver % 2 == 0 then t + n + 2 else t + 1)
    ensures r.Some? <==> Quiet(h0, moves, n, t)
    ensures r.Some? ==> r.value == At(h0, moves, t + 1).fields && exists k :: h.ver / 2 <= k < |h'.log| && r.value == h'.log[k]
  {
    hide Apply, Bracket, At;
    ApplyLater(h, moves(t));
    AtStep(h0, moves, t);
    ghost var h1 := Apply(h, moves(t));
    h', t' := Apply(h, moves(t)), t + 1;
    var v1 := h'.ver % U32;
    EvenVersion(h'.ver);
    if v1 % 2 != 0 { return None, h', t'; }
    var got;
    got, h' := ReadFields(h0, h', moves, t', n);
    LaterTrans(h, h1, h');
    assert Bracket(moves, t', n) < U32;
    t' := t' + n + 1;
    if v1 != h'.ver % U32 { return None, h', t'; }
    SameVersion(h1.ver, h'.ver);
    OneUpdate(h, h1, h', got);
    return Some(got), h', t';
  }

  lemma AtStep(h0: Host, moves: nat -> seq<HostStep>, t: nat)
    ensures At(h0, moves, 0) == h0 && At(h0, moves, t + 1) == Apply(At(h0, moves, t), moves(t))
  {
  }

  lemma OneUpdate(h0: Host, h1: Host, h: Host, got: seq<nat>)
    requires Later(h0, h1) && Later(h1, h) && h1.ver % 2 == 0 && got == h1.fields
    ensures exists k :: h0.ver / 2 <= k < |h.log| && got == h.log[k]
  {
    var k := h1.ver / 2;
    assert h1.log[k] == h1.fields && h.log[k] == h1.log[k];
  }

  // ---- what is done with the fields ----

  function Pow2(n: nat): (p: nat)
    ensures p > 0
  {
    if n == 0 then 1 else 2 * Pow2(n - 1)
  }

  /** The shift of scale_delta, to the left or to the right, in 64 bits; a release build takes the shift
      count modulo 64. */
  function Shifted(delta: nat, shift: int): nat {
    if shift < 0 then Over(delta, Pow2(-shift % 64)) else Low64(delta * Pow2(shift % 64))
  }

  function Over(n: nat, p: nat): nat
    requires p > 0
  {
    n / p
  }

  function Low64(n: nat): nat {
    n % U64
  }

  /** scale_delta: (delta << shift) * mul >> 32. */
  function ScaleDelta(delta: nat, mul: nat, shift: int): nat {
    Shifted(delta, shift) * mul / U32 % U64
  }

  /** A left shift multiplies, as long as no bits are lost at the top. */
  lemma ShiftUp(delta: nat, shift: int)
    requires 0 <= shift < 64 && delta * Pow2(shift) < U64
    ensures Shifted(delta, shift) == delta * Pow2(shift)
  {
    assert shift % 64 == shift;
    hide Pow2;
  }

  /** A right shift divides and rounds down. */
  lemma ShiftDown(delta: nat, shift: int)
    requires -64 < shift < 0
    ensures Shifted(delta, shift) * Pow2(-shift) <= delta < (Shifted(delta, shift) + 1) * Pow2(-shift)
  {
    hide Pow2;
    assert -shift % 64 == -shift;
    assert Shifted(delta, shift) == Over(delta, Pow2(-shift));
    Quotient(delta, Pow2(-shift));
  }

  lemma Quotient(n: nat, p: nat)
    requires p > 0
    ensures n / p * p <= n < (n / p + 1) * p
  {
    var q := n / p;
    assert n == p * q + n % p;
    assert q * p == p * q && (q + 1) * p == q * p + p;
  }

  /** The scaled delta is the shifted one times mul / 2^32, rounded down. */
  lemma ScaleIs(delta: nat, mul: nat, shift: int)
    requires mul < U32 && Shifted(delta, shift) < U64
    ensures var r := ScaleDelta(delta, mul, shift); r * U32 <= Shifted(delta, shift) * mul < (r + 1) * U32
  {
    hide Shifted;
    ShiftedProduct(Shifted(delta, shift), mul);
  }

  lemma ShiftedProduct(d: nat, mul: nat)
    requires d < U64 && mul < U32
    ensures var r := d * mul / U32; r <= d && r % U64 == r && r * U32 <= d * mul < (r + 1) * U32
  {
    assert d * mul <= d * U32;
  }

  function TimeOf(fields: seq<nat>, base: nat, tsc: nat, bias: nat): nat
    requires |fields| == 4
  {
    (base + fields[1] + ScaleDelta((tsc + U64 - fields[0] % U64) % U64, fields[2], fields[3] - bias)) % U64
  }

  /** The time, where nothing wraps: base, plus the update's system time, plus the scaled ticks since. */
  lemma TimeIs(fields: seq<nat>, base: nat, tsc: nat)
    requires |fields| == 4 && fields[0] <= tsc < U64 && fields[2] < U32 && 0 <= fields[3] - 128 < 64
    requires base + fields[1] + (tsc - fields[0]) * Pow2(fields[3] - 128) < U64
    ensures TimeOf(fields, base, tsc, 128) == base + fields[1] + (tsc - fields[0]) * Pow2(fields[3] - 128) * fields[2] / U32
  {
    var d := tsc - fields[0];
    assert (tsc + U64 - fields[0] % U64) % U64 == d;
    var x := d * Pow2(fields[3] - 128);
    ShiftUp(d, fields[3] - 128);
    ShiftedProduct(x, fields[2]);
    assert ScaleDelta(d, fields[2], fields[3] - 128) == x * fields[2] / U32;
    hide ScaleDelta;
  }

  /** Within one update the clock does not run backwards as long as nothing wraps, and at the update's
      own time stamp it shows the update's own time. */
  lemma ClockMonotone(fields: seq<nat>, base: nat, tsc: nat, later: nat)
    requires |fields| == 4 && fields[0] <= tsc <= later < U64 && fields[2] < U32 && 0 <= fields[3] - 128 < 64
    requires base + fields[1] + (later - fields[0]) * Pow2(fields[3] - 128) < U64
    ensures TimeOf(fields, base, fields[0], 128) == base + fields[1] <= TimeOf(fields, base, tsc, 128) <= TimeOf(fields, base, later, 128)
  {
    hide TimeOf, Pow2;
    var p := Pow2(fields[3] - 128);
    var x, y := tsc - fields[0], later - fields[0];
    LessTimes(x, y, p);
    LessTimes(0, y, p);
    TimeIs(fields, base, fields[0]);
    TimeIs(fields, base, tsc);
    TimeIs(fields, base, later);
    LessScaled(x * p, y * p, fields[2]);
  }

  lemma LessTimes(a: nat, b: nat, p: nat)
    requires a <= b
    ensures a * p <= b * p && 0 * p == 0
  {
  }

  lemma LessScaled(a: nat, b: nat, mul: nat)
    requires a <= b
    ensures a * mul / U32 <= b * mul / U32
  {
    LessTimes(a, b, mul);
  }

  function RealtimeOf(got: Option<seq<nat>>, base: nat, tsc: nat): Option<nat> {
    if got == None || |got.value| != 4 then None else Some(TimeOf(got.value, base, tsc, 128))
  }

  function WallOf(got: Option<seq<nat>>): nat {
    if got == None || |got.value| != 2 then 0 else got.value[0] * 1_000_000_000 + got.value[1]
  }

  /** realtime_ns: unavailable, or a time computed from one host update throughout.  The signed
      shift is stored with bias 128. */
  method RealtimeNs(available: bool, base: nat, tsc: nat, h0: Host, moves: nat -> seq<HostStep>)
    returns (r: Option<nat>, h: Host)
    requires HostOk(h0) && |h0.fields| == 4 && Unhurried(moves, 4)
    ensures !available ==> r == None
    ensures available ==> exists got :: Snapshot(h0, moves, 4, got) && r == RealtimeOf(got, base, tsc)
    ensures Later(h0, h)
    ensures r.Some? ==> exists k :: h0.ver / 2 <= k < |h.log| && |h.log[k]| == 4 && r.value == TimeOf(h.log[k], base, tsc, 128)
  {
    if !available { return None, h0; }
    var got;
    got, h := Read(h0, moves, 4);
    if got == None { return None, h; }
    ghost var k :| h0.ver / 2 <= k < |h.log| && got.value == h.log[k];
    assert |h.log[k]| == 4;
    return Some(TimeOf(got.value, base, tsc, 128)), h;
  }

  /** read_wall_ns: seconds and nanoseconds of one host update, or 0. */
  method ReadWallNs(h0: Host, moves: nat -> seq<HostStep>) returns (r: nat, h: Host)
    requires HostOk(h0) && |h0.fields| == 2 && Unhurried(moves, 2)
    ensures exists got :: Snapshot(h0, moves, 2, got) && r == WallOf(got)
    ensures r == 0 || exists k :: h0.ver / 2 <= k < |h.log| && |h.log[k]| == 2 && r == h.log[k][0] * 1_000_000_000 + h.log[k][1]
  {
    var got;
    got, h := Read(h0, moves, 2);
    if got == None { return 0, h; }
    ghost var k :| h0.ver / 2 <= k < |h.log| && got.value == h.log[k];
    assert |h.log[k]| == 2;
    return got.value[0] * 1_000_000_000 + got.value[1], h;
  }
}

/** How one CPU's step changes what the invariant observes, and the assembly of the core
    invariant from those pieces. */
module SchedCore {
  import opened Wrappers
  import opened PendingWakes
  import opened SchedState
  import opened SchedInvariant
  import opened SchedTokens
  import C = SchedContexts
  import L = SchedLocks

  lemma InitTokens(s: State)
    requires Init(s)
    ensures Tokens(BoardOf(s))
  {
    var b := BoardOf(s);
    forall c | 0 <= c < |s.cpus| ensures DueHome(b, c) && QueueHome(b, c) && HandFree(b, c) {}
  }

  lemma InitContexts(s: State)
    requires Init(s)
    ensures C.Contexts(OfficeOf(s))
  {
    var o := OfficeOf(s);
    forall c | 0 <= c < |s.cpus| ensures C.RunsHome(o, c) && C.Unstarted(o, c) {}
  }

  lemma InitCore(s: State)
    requires Init(s)
    ensures Core(s)
  {
    InitTokens(s);
    InitContexts(s);
    hide Tokens;
    forall c | 0 <= c < |s.cpus| ensures CpuOk(s, c) {}
  }

  /** Only CPU c changes. */
  predicate Acts(s: State, s': State, c: Cpu) {
    && Shaped(s) && Shaped(s') && c < |s.cpus| == |s'.cpus|
    && s'.cpus == s.cpus[c := s'.cpus[c]]
  }

  lemma Views(s: State, s': State, c: Cpu)
    requires Acts(s, s', c)
    ensures BoardOf(s').seats == BoardOf(s).seats[c := SeatOf(s'.cpus[c])]
    ensures OfficeOf(s').desks == OfficeOf(s).desks[c := DeskOf(s'.cpus[c])]
  {
  }

  lemma LockViews(s: State, s': State, c: Cpu)
    requires Acts(s, s', c)
    ensures BucketLocks(s').owned == BucketLocks(s).owned[c := Owned(s'.cpus[c])]
    ensures ThreadLock(s').owned == ThreadLock(s).owned[c := HoldsT(s'.cpus[c].pc)]
    ensures Reservations(s') == Reservations(s)[c := Reserved(s'.cpus[c].pc)]
  {
  }

  predicate SameSpine(x: Thread, y: Thread) {
    x.st == y.st && x.home == y.home && x.ctx == y.ctx && x.live == y.live
  }

  /** Thread records change in no way the observations show. */
  predicate SameSpines(s: State, s': State) {
    && s'.threads.Keys == s.threads.Keys
    && forall t :: t in s.threads ==> SameSpine(s.threads[t], s'.threads[t])
  }

  lemma ViewSame(s: State, s': State)
    requires SameSpines(s, s')
    ensures BoardOf(s').tokens == BoardOf(s).tokens && OfficeOf(s').files == OfficeOf(s).files
  {
  }

  lemma ViewThread(s: State, s': State, t: Tid)
    requires t in s'.threads && s'.threads == s.threads[t := s'.threads[t]]
    ensures BoardOf(s').tokens == BoardOf(s).tokens[t := Token(s'.threads[t].st, s'.threads[t].home)]
    ensures OfficeOf(s').files ==
            OfficeOf(s).files[t := C.File(s'.threads[t].st, s'.threads[t].home, s'.threads[t].ctx, s'.threads[t].live)]
  {
  }

  // ---- locks ----

  /** The step leaves the lock bits alone, or takes a free one, or frees the one it owns. */
  predicate LockMove(owned: Option<nat>, owned': Option<nat>, bits: seq<bool>, bits': seq<bool>) {
    || (owned' == owned && bits' == bits)
    || (owned == None && owned'.Some? && owned'.value < |bits| && !bits[owned'.value] && bits' == bits[owned'.value := true])
    || (owned.Some? && owned' == None && owned.value < |bits| && bits' == bits[owned.value := false])
  }

  lemma LockMoves(v: L.Locks, v': L.Locks, c: Cpu, o: Option<nat>)
    requires L.Exact(v) && c < |v.owned| && v'.owned == v.owned[c := o] && LockMove(v.owned[c], o, v.bits, v'.bits)
    ensures L.Exact(v')
  {
    if o == v.owned[c] && v'.bits == v.bits { assert v'.owned == v.owned; }
    else if o.Some? { L.Acquires(v, c, o.value); }
    else { L.Frees(v, c, v.owned[c].value); }
  }

  predicate Locking(s: State, s': State, c: Cpu)
    requires Acts(s, s', c)
  {
    var k, k' := s.cpus[c], s'.cpus[c];
    && LockMove(Owned(k), Owned(k'), s.locks, s'.locks)
    && LockMove(HoldsT(k.pc), HoldsT(k'.pc), [s.tlock], [s'.tlock])
    && (Reserved(k'.pc) == Reserved(k.pc) || Reserved(k'.pc) == None || Reserved(k'.pc) == Some(s.nextTid))
    && s'.nextTid >= s.nextTid
  }

  /** No CPU holds a thread number that has not been handed out. */
  lemma ReserveFresh(s: State, c: Cpu)
    requires Shaped(s) && CpusOk(s) && c < |s.cpus|
    ensures Reserved(s.cpus[c].pc) != Some(s.nextTid)
  {
    assert CpuOk(s, c);
  }

  lemma LockingKeeps(s: State, s': State, c: Cpu)
    requires Core(s) && Acts(s, s', c) && Locking(s, s', c)
    ensures L.Exact(BucketLocks(s')) && L.Exact(ThreadLock(s')) && L.Distinct(Reservations(s'))
  {
    LockViews(s, s', c);
    LockMoves(BucketLocks(s), BucketLocks(s'), c, Owned(s'.cpus[c]));
    LockMoves(ThreadLock(s), ThreadLock(s'), c, HoldsT(s'.cpus[c].pc));
    var r := Reservations(s);
    forall d | 0 <= d < |r| ensures r[d] != Some(s.nextTid) { ReserveFresh(s, d); }
    L.Redraws(r, c, Reserved(s'.cpus[c].pc), s.nextTid);
  }

  // ---- assembly ----

  lemma OthersOk(s: State, s': State, c: Cpu)
    requires Shaped(s) && CpusOk(s) && Acts(s, s', c) && CpuOk(s', c) && s'.nextTid >= s.nextTid
    requires forall d :: 0 <= d < |s.cpus| && d != c ==> SpawnPending(s', s.cpus[d].pc)
    ensures CpusOk(s')
  {
    forall d | 0 <= d < |s.cpus| ensures CpuOk(s', d) {
      assert CpuOk(s, d);
    }
  }

  /** A step that moves no token and touches no context. */
  predicate Quiet(s: State, s': State, c: Cpu) {
    && Acts(s, s', c) && Locking(s, s', c) && SameSpines(s, s')
    && s'.queues == s.queues && SeatOf(s'.cpus[c]) == SeatOf(s.cpus[c]) && DeskOf(s'.cpus[c]) == DeskOf(s.cpus[c])
    && CpuOk(s', c)
  }

  lemma QuietCore(s: State, s': State, c: Cpu)
    requires Core(s) && Quiet(s, s', c)
    ensures Core(s')
  {
    Views(s, s', c);
    ViewSame(s, s');
    LockingKeeps(s, s', c);
    assert BoardOf(s') == BoardOf(s);
    assert OfficeOf(s') == OfficeOf(s);
    forall d | 0 <= d < |s.cpus| && d != c ensures SpawnPending(s', s.cpus[d].pc) { assert CpuOk(s, d); }
    OthersOk(s, s', c);
  }

  lemma EnvCore(s: State, e: Env)
    requires Core(s)
    ensures Core(DoEnv(s, e))
  {
    var s' := DoEnv(s, e);
    forall d | 0 <= d < |s.cpus| ensures CpuOk(s', d) { assert CpuOk(s, d); }
    assert BoardOf(s') == BoardOf(s) && OfficeOf(s') == OfficeOf(s);
    assert BucketLocks(s') == BucketLocks(s) && ThreadLock(s') == ThreadLock(s) && Reservations(s') == Reservations(s);
  }
}

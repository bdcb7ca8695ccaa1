/** What the invariant means, for every reachable state of the scheduler: every interleaving, on
    any number of CPUs, of any length. */
module SchedTheorems {
  import opened Wrappers
  import opened SchedState
  import opened SchedTokens
  import opened SchedInvariant
  import opened SchedSteps
  import opened SchedWaits
  import opened SchedWatch
  import opened SchedPreserve
  import C = SchedContexts
  import L = SchedLocks

  lemma ReachableCore(s: State)
    requires Reachable(s)
    ensures Core(s)
  {
    ReachableInv(s);
  }

  lemma CoreShaped(s: State)
    requires Core(s)
    ensures Shaped(s)
  {
  }

  lemma ShapeOf(s: State, c: Cpu)
    requires Core(s) && c < |s.cpus|
    ensures Shaped(s) && PcShape(s.cpus[c])
  {
    assert CpuOk(s, c);
  }

  // ---- accounting ----

  /** The places a thread can be in. */
  datatype Place = Queued(c: Cpu, at: nat) | OnCpu(c: Cpu) | Carried(c: Cpu) | Sleeping | Gone

  predicate IsAt(s: State, t: Tid, p: Place)
    requires Shaped(s) && t in s.threads
  {
    match p
    case Queued(c, at) => c < |s.queues| && at < |s.queues[c]| && s.queues[c][at] == t
    case OnCpu(c) => c < |s.cpus| && Due(s.cpus[c]) == Some(t)
    case Carried(c) => c < |s.cpus| && Hand(s.cpus[c].pc) == Some(t)
    case Sleeping => s.threads[t].st == Blocked
    case Gone => s.threads[t].st == Dead
  }

  lemma SomePlace(s: State, t: Tid)
    requires Core(s) && t in s.threads
    ensures exists p :: IsAt(s, t, p)
  {
    var v := BoardOf(s);
    assert Placed(v, t);
    var h := v.tokens[t].home;
    if s.threads[t].st == Blocked { assert IsAt(s, t, Sleeping); }
    else if s.threads[t].st == Dead { assert IsAt(s, t, Gone); }
    else if t in s.queues[h] {
      var i :| 0 <= i < |s.queues[h]| && s.queues[h][i] == t;
      assert IsAt(s, t, Queued(h, i));
    } else if v.seats[h].due == Some(t) { assert IsAt(s, t, OnCpu(h)); }
    else {
      var c :| 0 <= c < |v.seats| && v.seats[c].hand == Some(t);
      assert IsAt(s, t, Carried(c));
    }
  }

  /** A place fixes the thread's state and, where there is one, the CPU: its home. */
  lemma PlaceFacts(s: State, t: Tid, p: Place)
    requires Core(s) && t in s.threads && IsAt(s, t, p)
    ensures !p.Sleeping? && !p.Gone? ==> Runnable(s.threads[t].st)
    ensures p.Queued? || p.OnCpu? ==> p.c == s.threads[t].home
    ensures p.OnCpu? ==> t !in s.queues[p.c]
    ensures p.Carried? ==>
      && s.threads[t].home < |s.cpus|
      && t !in s.queues[s.threads[t].home] && Due(s.cpus[s.threads[t].home]) != Some(t)
  {
    var v := BoardOf(s);
    if p.Queued? { assert QueueHome(v, p.c) && t in v.queues[p.c]; }
    if p.OnCpu? { assert DueHome(v, p.c) && v.seats[p.c].due == Some(t); }
    if p.Carried? { assert HandFree(v, p.c) && v.seats[p.c].hand == Some(t); }
  }

  lemma OnePlace(s: State, t: Tid, p: Place, q: Place)
    requires Core(s) && t in s.threads && IsAt(s, t, p) && IsAt(s, t, q)
    ensures p == q
  {
    PlaceFacts(s, t, p);
    PlaceFacts(s, t, q);
    var v := BoardOf(s);
    if p.Queued? && q.Queued? { assert QueueHome(v, p.c) && NoRepeat(v.queues[p.c]); }
    if p.Carried? && q.Carried? { assert v.seats[p.c].hand == v.seats[q.c].hand == Some(t); }
  }

  /** Every thread is accounted for exactly once. */
  lemma AccountedOnce(s: State, t: Tid)
    requires Reachable(s) && t in s.threads
    ensures Shaped(s)
    ensures exists p :: IsAt(s, t, p) && forall q :: IsAt(s, t, q) ==> q == p
  {
    ReachableInv(s);
    SomePlace(s, t);
    var p :| IsAt(s, t, p);
    forall q | IsAt(s, t, q) ensures q == p { OnePlace(s, t, q, p); }
  }

  /** No thread number occurs twice across all run queues. */
  lemma NoDoubleQueue(s: State, c: Cpu, i: nat, d: Cpu, j: nat)
    requires Reachable(s) && c < |s.queues| && i < |s.queues[c]| && d < |s.queues| && j < |s.queues[d]|
    requires s.queues[c][i] == s.queues[d][j]
    ensures c == d && i == j
    ensures s.queues[c][i] in s.threads
  {
    ReachableInv(s);
    var v, t := BoardOf(s), s.queues[c][i];
    assert QueueHome(v, c) && t in v.queues[c];
    OnePlace(s, t, Queued(c, i), Queued(d, j));
  }

  // ---- contexts ----

  /** A CPU executes a thread only at home and with the registers the thread itself produced, so
      no thread runs on two CPUs. */
  lemma RunsOnceAtHome(s: State, c: Cpu, d: Cpu, t: Tid)
    requires Reachable(s) && c < |s.cpus| && d < |s.cpus| && s.cpus[c].who == Thr(t)
    ensures t in s.threads && s.threads[t].home == c && s.cpus[c].data == s.threads[t].live
    ensures s.cpus[d].who == Thr(t) ==> c == d
  {
    ReachableInv(s);
    var v := OfficeOf(s);
    assert C.RunsHome(v, c) && C.RunsHome(v, d);
    assert v.desks[c].who == Thr(t) && v.desks[d].who == s.cpus[d].who;
  }

  /** `current` is the thread the CPU executes or the one it is committed to. */
  lemma CurrentIsOnCpu(k: CpuState)
    requires PcShape(k) && k.current.Some?
    ensures k.current == Due(k) || k.current == ThreadOf(k.who)
  {
  }

  lemma DueAtHome(s: State, c: Cpu, t: Tid)
    requires Shaped(s) && Tokens(BoardOf(s)) && c < |s.cpus| && (t in s.queues[c] || Due(s.cpus[c]) == Some(t))
    ensures t in s.threads && s.threads[t].home == c
  {
    assert QueueHome(BoardOf(s), c) && DueHome(BoardOf(s), c) && BoardOf(s).seats[c].due == Due(s.cpus[c]);
  }

  /** A thread that is queued or current on a CPU has that CPU as its home. */
  lemma QueuedOrCurrentAtHome(s: State, c: Cpu, t: Tid)
    requires Reachable(s) && c < |s.cpus| == |s.queues| && (t in s.queues[c] || s.cpus[c].current == Some(t))
    ensures t in s.threads && s.threads[t].home == c
  {
    ReachableCore(s);
    assert CpuOk(s, c);
    if t in s.queues[c] || Due(s.cpus[c]) == Some(t) {
      DueAtHome(s, c, t);
    } else {
      CurrentIsOnCpu(s.cpus[c]);
      RunsOnceAtHome(s, c, c, t);
    }
  }

  lemma NobodyElse(s: State, c: Cpu, t: Tid)
    requires Shaped(s) && C.Contexts(OfficeOf(s)) && c < |s.cpus| && t in s.threads && s.threads[t].home == c
    requires s.cpus[c].who != Thr(t)
    ensures forall d :: 0 <= d < |s.cpus| ==> s.cpus[d].who != Thr(t)
  {
    var v := OfficeOf(s);
    forall d | 0 <= d < |s.cpus| ensures s.cpus[d].who != Thr(t) {
      assert C.RunsHome(v, d) && v.desks[d].who == s.cpus[d].who;
    }
  }

  lemma LoadFacts(s: State, c: Cpu)
    requires Core(s) && c < |s.cpus| && s.cpus[c].pc.SwitchLoad? && s.cpus[c].pc.to.Thr?
    ensures var t := s.cpus[c].pc.to.tid;
      && t in s.threads && s.threads[t].ctx.data == s.threads[t].live && C.ThreadResume(s.threads[t].ctx.resume, t)
      && forall d :: 0 <= d < |s.cpus| ==> s.cpus[d].who != Thr(t)
  {
    assert CpuOk(s, c);
    LoadedIsSaved(s, c);
    NobodyElse(s, c, s.cpus[c].pc.to.tid);
  }

  /** No stale resume: a switch loads, while no CPU executes the thread, exactly the registers
      the thread last had; the resume point is inside its own wait, a yield, or a fresh clone. */
  lemma NoStaleResume(s: State, c: Cpu)
    requires Reachable(s) && c < |s.cpus| && s.cpus[c].pc.SwitchLoad? && s.cpus[c].pc.to.Thr?
    ensures Shaped(s) && PcReady(s, c)
    ensures var t, s' := s.cpus[c].pc.to.tid, DoLoad(s, c);
      && s'.cpus[c].who == Thr(t) && t in s.threads && s'.cpus[c].data == s.threads[t].live
      && s'.cpus[c].pc.Resuming? && C.ThreadResume(s'.cpus[c].pc.at, t)
      && forall d :: 0 <= d < |s.cpus| ==> s.cpus[d].who != Thr(t)
  {
    hide Core;
    ReachableCore(s);
    LoadFacts(s, c);
    CoreShaped(s);
  }

  // ---- locks ----

  lemma HeldIffOwned(s: State, b: nat)
    requires Shaped(s) && L.Exact(BucketLocks(s)) && b < FUTEX_BUCKETS
    ensures s.locks[b] <==> exists c :: 0 <= c < |s.cpus| && Owned(s.cpus[c]) == Some(b)
  {
    var v := BucketLocks(s);
    assert forall c :: 0 <= c < |s.cpus| ==> v.owned[c] == Owned(s.cpus[c]);
    if s.locks[b] {
      assert L.Owners(v, b);
      var c :| 0 <= c < |v.owned| && v.owned[c] == Some(b);
      assert Owned(s.cpus[c]) == Some(b);
    }
  }

  lemma OneOwner(s: State, b: nat, c: Cpu, d: Cpu)
    requires Shaped(s) && L.Exact(BucketLocks(s)) && c < |s.cpus| && d < |s.cpus|
    requires Owned(s.cpus[c]) == Some(b) && Owned(s.cpus[d]) == Some(b)
    ensures c == d
  {
    var v := BucketLocks(s);
    assert v.owned[c] == v.owned[d] == Some(b);
  }

  /** A bucket lock is held exactly when it has an owner, and the owner is unique. */
  lemma LocksExact(s: State, b: nat)
    requires Reachable(s) && b < FUTEX_BUCKETS
    ensures Shaped(s)
    ensures s.locks[b] <==> exists c :: 0 <= c < |s.cpus| && Owned(s.cpus[c]) == Some(b)
    ensures forall c: Cpu, d: Cpu | c < |s.cpus| && d < |s.cpus| :: Owned(s.cpus[c]) == Some(b) && Owned(s.cpus[d]) == Some(b) ==> c == d
  {
    ReachableCore(s);
    HeldIffOwned(s, b);
    forall c: Cpu, d: Cpu | c < |s.cpus| && d < |s.cpus| && Owned(s.cpus[c]) == Some(b) && Owned(s.cpus[d]) == Some(b)
      ensures c == d
    {
      OneOwner(s, b, c, d);
    }
  }

  /** A CPU owns a lock through a live guard or through its hand-off slot, never both; the slot
      is empty whenever it is written; and once it is written its CPU only saves, loads and
      resumes, so it takes no lock before a resume point has released the slot. */
  lemma HandoffDiscipline(s: State, c: Cpu)
    requires Reachable(s) && c < |s.cpus|
    ensures s.cpus[c].slot == None || GuardOf(s.cpus[c].pc) == None
    ensures s.cpus[c].pc.WaitHand? ==> s.cpus[c].slot == None
    ensures s.cpus[c].slot.Some? ==>
      s.cpus[c].pc.SwitchSave? || s.cpus[c].pc.SwitchLoad? || s.cpus[c].pc.Resuming?
  {
    hide Core;
    ReachableCore(s);
    ShapeOf(s, c);
  }

  lemma ReleaseFacts(s: State, c: Cpu)
    requires Shaped(s) && c < |s.cpus| && PcShape(s.cpus[c]) && s.cpus[c].pc.Resuming? && L.Exact(BucketLocks(s))
    ensures PcReady(s, c)
    ensures var k, s' := s.cpus[c], DoRelease(s, c);
      && s'.cpus[c].slot == None && !Waiting(s'.cpus[c].pc)
      && (if k.slot.Some? then s.locks[k.slot.value] && s'.locks == s.locks[k.slot.value := false]
          else s'.locks == s.locks)
  {
    assert BucketLocks(s).owned[c] == Owned(s.cpus[c]);
  }

  /** A resume point releases the handed-off lock, which is held, and nothing else. */
  lemma ResumeReleases(s: State, c: Cpu)
    requires Reachable(s) && c < |s.cpus| && s.cpus[c].pc.Resuming?
    ensures Shaped(s) && PcReady(s, c)
    ensures var k, s' := s.cpus[c], DoRelease(s, c);
      && s'.cpus[c].slot == None && !Waiting(s'.cpus[c].pc)
      && (if k.slot.Some? then s.locks[k.slot.value] && s'.locks == s.locks[k.slot.value := false]
          else s'.locks == s.locks)
  {
    ReachableCore(s);
    assert CpuOk(s, c);
    ReleaseFacts(s, c);
  }

  /** A CPU spinning for a bucket lock owns nothing; one spinning for THREAD_LOCK owns at most a
      bucket lock.  So locks are taken in the order bucket, thread. */
  lemma LockOrder(s: State, c: Cpu)
    requires Reachable(s) && c < |s.cpus| && Waiting(s.cpus[c].pc)
    ensures HoldsT(s.cpus[c].pc) == None && s.cpus[c].slot == None
    ensures s.cpus[c].pc.WaitLock? || s.cpus[c].pc.WakeLock? || s.cpus[c].pc.RescueLock? ==> Owned(s.cpus[c]) == None
  {
    hide Core;
    ReachableCore(s);
    ShapeOf(s, c);
  }

  /** What the invariant says about the threads a CPU's program counter refers to. */
  lemma Referents(s: State, c: Cpu)
    requires Core(s) && c < |s.cpus|
    ensures Shaped(s) && CpuOk(s, c)
    ensures s.cpus[c].who.Thr? ==> s.cpus[c].who.tid in s.threads
    ensures Due(s.cpus[c]).Some? ==> Due(s.cpus[c]).value in s.threads
    ensures Hand(s.cpus[c].pc).Some? ==>
      Hand(s.cpus[c].pc).value in s.threads && s.threads[Hand(s.cpus[c].pc).value].home < |s.cpus|
    ensures Owned(s.cpus[c]).Some? ==> Owned(s.cpus[c]).value < FUTEX_BUCKETS
  {
    var k := s.cpus[c];
    assert CpuOk(s, c);
    assert C.RunsHome(OfficeOf(s), c) && OfficeOf(s).desks[c].who == k.who;
    assert DueHome(BoardOf(s), c) && BoardOf(s).seats[c].due == Due(k);
    assert HandFree(BoardOf(s), c) && BoardOf(s).seats[c].hand == Hand(k.pc);
    assert BucketLocks(s).owned[c] == Owned(k);
  }

  /** Every kernel step reads only what exists: a CPU inside the kernel can always take its next
      step unless it spins on a lock that is held, or picks the CPU for a new thread. */
  lemma NeverStuck(s: State, c: Cpu)
    requires Core(s) && c < |s.cpus| && !s.cpus[c].pc.Safe?
    requires Shaped(s) && (Waiting(s.cpus[c].pc) ==> LockFree(s, s.cpus[c].pc))
    ensures if s.cpus[c].pc.SpawnPick? then Enabled(s, c, SpawnOn(c)) else Enabled(s, c, Proceed)
  {
    hide Core;
    hide Bucket;
    Referents(s, c);
  }

  predicate CanStep(s: State, c: Cpu) {
    Enabled(s, c, Proceed) || Enabled(s, c, SpawnOn(c))
  }

  /** A CPU that owns a lock never rests at a safe point. */
  lemma OwnersInKernel(s: State, c: Cpu)
    requires Core(s) && c < |s.cpus| && (Owned(s.cpus[c]).Some? || HoldsT(s.cpus[c].pc).Some?)
    ensures !s.cpus[c].pc.Safe?
  {
    assert CpuOk(s, c);
  }

  /** The holder of THREAD_LOCK can step. */
  lemma ThreadLockMoves(s: State)
    requires Inv(s) && s.tlock
    ensures exists d :: 0 <= d < |s.cpus| && HoldsT(s.cpus[d].pc).Some? && CanStep(s, d)
  {
    var v := ThreadLock(s);
    assert v.bits[0] && L.Owners(v, 0);
    var d :| 0 <= d < |v.owned| && v.owned[d] == Some(0);
    assert HoldsT(s.cpus[d].pc).Some?;
    NeverStuck(s, d);
  }

  /** No deadlock: whenever a CPU is inside the kernel, some CPU can take a kernel step.  A
      spinning CPU waits for one that can step itself or that waits for the holder of
      THREAD_LOCK, which can. */
  lemma NoDeadlock(s: State, c: Cpu)
    requires Reachable(s) && c < |s.cpus| && !s.cpus[c].pc.Safe?
    ensures exists d :: 0 <= d < |s.cpus| && CanStep(s, d)
  {
    ReachableInv(s);
    var pc := s.cpus[c].pc;
    if !Waiting(pc) || LockFree(s, pc) {
      NeverStuck(s, c);
      assert CanStep(s, c);
    } else if pc.WaitLock? || pc.WakeLock? || pc.RescueLock? {
      assert CpuOk(s, c);
      var b := if pc.RescueLock? then pc.b else Bucket(pc.a);
      LocksExact(s, b);
      var d :| 0 <= d < |s.cpus| && Owned(s.cpus[d]) == Some(b);
      OwnersInKernel(s, d);
      if Waiting(s.cpus[d].pc) && !LockFree(s, s.cpus[d].pc) {
        LockOrder(s, d);
        ThreadLockMoves(s);
      } else {
        NeverStuck(s, d);
        assert CanStep(s, d);
      }
    } else {
      ThreadLockMoves(s);
    }
  }

  // ---- wakes ----

  /** No lost wake: a thread asleep on a word either still sees the value it expects there, or
      some thread has changed the word and not finished its wake-all. */
  lemma NoLostWake(s: State, t: Tid)
    requires Reachable(s) && Asleep(s, t)
    ensures s.threads[t].addr in s.mem
    ensures s.mem[s.threads[t].addr] == s.threads[t].val
         || exists w :: w in s.threads && s.threads[t].addr in s.threads[w].owes
  {
    ReachableInv(s);
    SleeperCovered(s, t);
  }

  lemma SleeperCovered(s: State, t: Tid)
    requires Waits(s) && Asleep(s, t)
    ensures s.threads[t].addr in s.mem
    ensures s.mem[s.threads[t].addr] == s.threads[t].val
         || exists w :: w in s.threads && s.threads[t].addr in s.threads[w].owes
  {
    hide TimerOk;
    hide ClaimOk;
    hide SweepOk;
    var v, a := WatchOf(s), s.threads[t].addr;
    assert t < MAX_THREADS;
    assert v.asleep[t] == Some(Claim(a, s.threads[t].val));
    if s.mem[a] != s.threads[t].val {
      var w :| 0 <= w < |v.debts| && a in v.debts[w];
      assert a in s.threads[w].owes;
    }
  }

  /** When nobody owes a wake, nobody sleeps on a word that has changed. */
  lemma QuiescentSleepers(s: State)
    requires Reachable(s) && forall w :: w in s.threads ==> s.threads[w].owes == {}
    ensures forall t: Tid :: Asleep(s, t) ==>
      s.threads[t].addr in s.mem && s.mem[s.threads[t].addr] == s.threads[t].val
  {
    forall t: Tid | Asleep(s, t)
      ensures s.threads[t].addr in s.mem && s.mem[s.threads[t].addr] == s.threads[t].val
    {
      NoLostWake(s, t);
    }
  }

  // ---- timeouts ----

  lemma ResultFacts(s: State, c: Cpu)
    requires Inv(s) && c < |s.cpus| && s.cpus[c].pc.WaitResult?
    ensures s.cpus[c].pc.me in s.threads && TimerOk(s, s.cpus[c].pc.me)
    ensures Inside(s, s.cpus[c].pc.me) && !Marking(s, s.cpus[c].pc.me)
  {
    assert CpuOk(s, c);
    assert C.RunsHome(OfficeOf(s), c) && OfficeOf(s).desks[c].who == s.cpus[c].who;
  }

  /** A wait that blocked returns 0 or a timeout, and a timeout exactly if it had a deadline and the
      rescue that ended this very wait, once it was all marked, happened at or after it. */
  lemma TimeoutIsOwn(s: State, c: Cpu)
    requires Reachable(s) && c < |s.cpus| && s.cpus[c].pc.WaitResult?
    ensures Shaped(s) && s.cpus[c].pc.me in s.threads
    ensures var t := s.cpus[c].pc.me;
      var th, r := s.threads[t], DoResult(s, c).threads[t].ret;
      && (r == ETIMEDOUT || r == 0)
      && (r == ETIMEDOUT <==>
            && th.waitDeadline != 0
            && th.rescue.Some? && th.rescue.value.no == th.waitNo && th.rescue.value.whole
            && th.waitDeadline <= th.rescue.value.at <= s.now)
  {
    ReachableInv(s);
    ResultFacts(s, c);
  }
}

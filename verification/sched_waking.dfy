/** The steps that block, wake, store or report keep the waiting invariant. */
module SchedWaking {
  import opened Wrappers
  import opened PendingWakes
  import opened SchedState
  import opened SchedInvariant
  import opened SchedWatch
  import opened SchedCore
  import opened SchedWaits
  import T = SchedTokens
  import C = SchedContexts
  import L = SchedLocks

  /** What the core invariant says about the thread a CPU executes. */
  lemma Runner(s: State, c: Cpu)
    requires Core(s) && c < |s.cpus|
    ensures CpuOk(s, c)
    ensures s.cpus[c].who.Thr? ==> s.cpus[c].who.tid in s.threads && s.threads[s.cpus[c].who.tid].home == c
    ensures Due(s.cpus[c]).Some? ==> Due(s.cpus[c]).value in s.threads && T.Runnable(s.threads[Due(s.cpus[c]).value].st)
  {
    assert C.RunsHome(OfficeOf(s), c) && OfficeOf(s).desks[c].who == s.cpus[c].who;
    assert T.DueHome(BoardOf(s), c) && BoardOf(s).seats[c].due == Due(s.cpus[c]);
  }

  predicate SameTimer(s: State, s': State, t: Tid)
    requires t in s.threads && t in s'.threads
  {
    var x, y := s.threads[t], s'.threads[t];
    && y.deadline == x.deadline && y.timedOut == x.timedOut && y.waitNo == x.waitNo
    && y.waitDeadline == x.waitDeadline && y.rescue == x.rescue && y.home == x.home
    && (y.st == Blocked ==> x.st == Blocked)
    && Inside(s', t) == Inside(s, t) && Marking(s', t) == Marking(s, t)
    && (Marking(s, t) ==> s'.cpus[y.home].pc == s.cpus[x.home].pc)
  }

  lemma TimersBut(s: State, s': State, c: Cpu, t0: Option<Tid>)
    requires Timers(s) && Acts(s, s', c) && s'.now >= s.now
    requires forall t :: t in s'.threads ==> if t0 == Some(t) then t < MAX_THREADS && TimerOk(s', t) else t in s.threads && SameTimer(s, s', t)
    ensures Timers(s')
  {
    forall t | t in s'.threads ensures t < MAX_THREADS && TimerOk(s', t) {
      if t0 != Some(t) { assert TimerOk(s, t) && SameTimer(s, s', t); }
    }
  }

  lemma ScansBut(s: State, s': State, c: Cpu)
    requires Scans(s) && Acts(s, s', c) && ScanOk(s'.cpus[c].pc)
    ensures Scans(s')
  {
  }

  // ---- the waiter ----

  lemma BlockWatch(s: State, c: Cpu)
    requires Shaped(s) && c < |s.cpus| && CpuOk(s, c) && Watched(WatchOf(s))
    requires s.cpus[c].pc.WaitCheck? && WaitVerdict(s, s.cpus[c]) == None
    ensures Watched(WatchOf(DoWaitCheck(s, c)))
  {
    var s', v := DoWaitCheck(s, c), WatchOf(s);
    WatchViews(s, s', c);
    WatchSame(s, s', c);
    Commits(v, c, Claim(s.cpus[c].pc.a, s.cpus[c].pc.v));
    assert WatchOf(s') == With(v, c, Some(Claim(s.cpus[c].pc.a, s.cpus[c].pc.v)), None, v.owned[c]);
  }

  lemma BlockTimers(s: State, c: Cpu)
    requires Shaped(s) && c < |s.cpus| && s.cpus[c].pc.WaitCheck? && WaitVerdict(s, s.cpus[c]) == None && Timers(s) && Scans(s)
    ensures Timers(DoWaitCheck(s, c)) && Scans(DoWaitCheck(s, c))
  {
    var s' := DoWaitCheck(s, c);
    TimersBut(s, s', c, None);
    ScansBut(s, s', c);
  }

  lemma BlockWaits(s: State, c: Cpu)
    requires Core(s) && c < |s.cpus| && Waits(s) && s.cpus[c].pc.WaitCheck? && WaitVerdict(s, s.cpus[c]) == None
    ensures Waits(DoWaitCheck(s, c))
  {
    Runner(s, c);
    BlockWatch(s, c);
    BlockTimers(s, c);
  }

  lemma MarkWatch(s: State, c: Cpu)
    requires Shaped(s) && c < |s.cpus| && CpuOk(s, c) && Watched(WatchOf(s)) && s.cpus[c].pc.WaitMark?
    requires s.cpus[c].pc.me < MAX_THREADS && s.cpus[c].pc.me in s.threads && s.threads[s.cpus[c].pc.me].home == c && s.threads[s.cpus[c].pc.me].st != Blocked
    ensures Watched(WatchOf(DoMark(s, c)))
  {
    var s', v, me := DoMark(s, c), WatchOf(s), s.cpus[c].pc.me;
    WatchViews(s, s', c);
    WatchThread(s, s', c, me);
    assert WatchOf(s').asleep == v.asleep && WatchOf(s').debts == v.debts;
    assert WatchOf(s').claims == v.claims && WatchOf(s').sweeps == v.sweeps && WatchOf(s').owned == v.owned;
  }

  lemma MarkTimers(s: State, c: Cpu)
    requires Shaped(s) && c < |s.cpus| && CpuOk(s, c) && s.cpus[c].pc.WaitMark? && s.cpus[c].pc.me in s.threads && s.threads[s.cpus[c].pc.me].home == c && Timers(s) && Scans(s)
    ensures Timers(DoMark(s, c)) && Scans(DoMark(s, c))
  {
    var s' := DoMark(s, c);
    assert TimerOk(s, s.cpus[c].pc.me);
    TimersBut(s, s', c, Some(s.cpus[c].pc.me));
    ScansBut(s, s', c);
  }

  lemma MarkWaits(s: State, c: Cpu)
    requires Core(s) && c < |s.cpus| && Waits(s) && s.cpus[c].pc.WaitMark? && s.cpus[c].pc.me in s.threads
    ensures Waits(DoMark(s, c))
  {
    Runner(s, c);
    MarkWatch(s, c);
    MarkTimers(s, c);
  }

  lemma FieldsWatch(s: State, c: Cpu)
    requires Shaped(s) && c < |s.cpus| && CpuOk(s, c) && Watched(WatchOf(s)) && s.cpus[c].pc.WaitFields?
    requires s.cpus[c].pc.me < MAX_THREADS && s.cpus[c].pc.me in s.threads && s.threads[s.cpus[c].pc.me].home == c
    ensures Watched(WatchOf(DoFields(s, c)))
  {
    var s', v, me := DoFields(s, c), WatchOf(s), s.cpus[c].pc.me;
    WatchViews(s, s', c);
    WatchThread(s, s', c, me);
    assert WatchOf(s').debts == v.debts;
    if s.threads[me].st == Blocked {
      Sleeps(v, c, me);
      assert WatchOf(s') == With(v, c, None, None, v.owned[c]).(asleep := v.asleep[me := v.claims[c]]);
    } else {
      Rouses(v, c, me);
      assert WatchOf(s').sweeps == v.sweeps && WatchOf(s').owned == v.owned;
      assert WatchOf(s') == v.(asleep := v.asleep[me := None], claims := v.claims[c := None]);
    }
  }

  lemma FieldsTimers(s: State, c: Cpu)
    requires Shaped(s) && c < |s.cpus| && CpuOk(s, c) && s.cpus[c].pc.WaitFields? && s.cpus[c].pc.me in s.threads && s.threads[s.cpus[c].pc.me].home == c && Timers(s) && Scans(s)
    ensures Timers(DoFields(s, c)) && Scans(DoFields(s, c))
  {
    var s' := DoFields(s, c);
    assert TimerOk(s, s.cpus[c].pc.me);
    TimersBut(s, s', c, Some(s.cpus[c].pc.me));
    ScansBut(s, s', c);
  }

  lemma FieldsWaits(s: State, c: Cpu)
    requires Core(s) && c < |s.cpus| && Waits(s) && s.cpus[c].pc.WaitFields? && s.cpus[c].pc.me in s.threads
    ensures Waits(DoFields(s, c))
  {
    Runner(s, c);
    FieldsWatch(s, c);
    FieldsTimers(s, c);
  }

  lemma ResultWatch(s: State, c: Cpu)
    requires Shaped(s) && c < |s.cpus| && CpuOk(s, c) && Watched(WatchOf(s)) && s.cpus[c].pc.WaitResult?
    requires s.cpus[c].pc.me < MAX_THREADS && s.cpus[c].pc.me in s.threads && s.threads[s.cpus[c].pc.me].st != Blocked
    ensures Watched(WatchOf(DoResult(s, c)))
  {
    var s', v, me := DoResult(s, c), WatchOf(s), s.cpus[c].pc.me;
    WatchViews(s, s', c);
    WatchThread(s, s', c, me);
    assert WatchOf(s').asleep == v.asleep && WatchOf(s').debts == v.debts;
    assert WatchOf(s').claims == v.claims && WatchOf(s').sweeps == v.sweeps && WatchOf(s').owned == v.owned;
  }

  lemma ResultTimers(s: State, c: Cpu)
    requires Shaped(s) && c < |s.cpus| && CpuOk(s, c) && s.cpus[c].pc.WaitResult? && s.cpus[c].pc.me in s.threads && s.threads[s.cpus[c].pc.me].st != Blocked && s.threads[s.cpus[c].pc.me].home == c && Timers(s) && Scans(s)
    ensures Timers(DoResult(s, c)) && Scans(DoResult(s, c))
  {
    var s' := DoResult(s, c);
    assert TimerOk(s, s.cpus[c].pc.me);
    TimersBut(s, s', c, Some(s.cpus[c].pc.me));
    ScansBut(s, s', c);
  }

  lemma ResultWaits(s: State, c: Cpu)
    requires Core(s) && c < |s.cpus| && Waits(s) && s.cpus[c].pc.WaitResult? && s.cpus[c].pc.me in s.threads
    ensures Waits(DoResult(s, c))
  {
    Runner(s, c);
    ResultWatch(s, c);
    ResultTimers(s, c);
  }

  // ---- the waker ----

  /** A step of a waker that moves only its sweep. */
  lemma SweepStep(s: State, s': State, c: Cpu)
    requires Watched(WatchOf(s)) && Acts(s, s', c)
    requires s'.threads == s.threads && s'.mem == s.mem && Owned(s'.cpus[c]) == Owned(s.cpus[c])
    requires ClaimOf(s.cpus[c].pc) == None && ClaimOf(s'.cpus[c].pc) == None
    requires SweepOf(s'.cpus[c].pc) == None ==> SweepOf(s.cpus[c].pc) == None
    requires SweepOf(s'.cpus[c].pc).Some? ==>
               var x := SweepOf(s'.cpus[c].pc).value;
               Owned(s.cpus[c]) == Some(Bucket(x.a)) && ClearBelow(WatchOf(s), x)
    ensures Watched(WatchOf(s'))
  {
    var v := WatchOf(s);
    WatchViews(s, s', c);
    WatchSame(s, s', c);
    assert WatchOf(s').owned == v.owned && WatchOf(s').claims == v.claims;
    if SweepOf(s'.cpus[c].pc).Some? {
      Sweeps(v, c, SweepOf(s'.cpus[c].pc).value);
      assert WatchOf(s') == v.(sweeps := v.sweeps[c := SweepOf(s'.cpus[c].pc)]);
    } else {
      assert WatchOf(s') == v;
    }
  }

  /** What a sweep has established so far. */
  lemma SweptSoFar(s: State, c: Cpu)
    requires c < |s.cpus| && Watched(WatchOf(s)) && SweepOf(s.cpus[c].pc).Some?
    ensures ClearBelow(WatchOf(s), SweepOf(s.cpus[c].pc).value)
  {
    var v := WatchOf(s);
    assert SweepOk(v, c) && v.sweeps[c] == SweepOf(s.cpus[c].pc);
  }

  lemma AcquireWakeTimers(s: State, c: Cpu)
    requires Shaped(s) && c < |s.cpus| && s.cpus[c].pc.WakeTLock? && LockFree(s, s.cpus[c].pc) && Timers(s) && Scans(s)
    ensures Timers(DoAcquire(s, c)) && Scans(DoAcquire(s, c))
  {
    var s' := DoAcquire(s, c);
    TimersBut(s, s', c, None);
    ScansBut(s, s', c);
  }

  lemma AcquireWakeWaits(s: State, c: Cpu)
    requires Core(s) && c < |s.cpus| && Waits(s) && s.cpus[c].pc.WakeTLock? && LockFree(s, s.cpus[c].pc)
    ensures Waits(DoAcquire(s, c))
  {
    Runner(s, c);
    SweepStep(s, DoAcquire(s, c), c);
    AcquireWakeTimers(s, c);
  }

  lemma ScanEndWatch(s: State, c: Cpu)
    requires Shaped(s) && c < |s.cpus| && PcShape(s.cpus[c]) && Watched(WatchOf(s))
    requires s.cpus[c].pc.WakeScan? && ScanOk(s.cpus[c].pc)
    requires s.cpus[c].pc.i >= MAX_THREADS || s.cpus[c].pc.woken >= s.cpus[c].pc.count
    ensures Watched(WatchOf(DoScan(s, c)))
  {
    if s.cpus[c].pc.count >= MAX_THREADS { SweptSoFar(s, c); }
    SweepStep(s, DoScan(s, c), c);
  }

  lemma ScanSkipWatch(s: State, c: Cpu)
    requires Shaped(s) && c < |s.cpus| && PcShape(s.cpus[c]) && Watched(WatchOf(s))
    requires s.cpus[c].pc.WakeScan? && s.cpus[c].pc.i < MAX_THREADS && s.cpus[c].pc.woken < s.cpus[c].pc.count
    requires !ScanHits(s, s.cpus[c].pc)
    ensures Watched(WatchOf(DoScan(s, c)))
  {
    if s.cpus[c].pc.count >= MAX_THREADS { SweptSoFar(s, c); }
    SweepStep(s, DoScan(s, c), c);
  }

  lemma ScanMissTimers(s: State, c: Cpu)
    requires Shaped(s) && c < |s.cpus| && s.cpus[c].pc.WakeScan? && !ScanHits(s, s.cpus[c].pc) && Timers(s) && Scans(s)
    ensures Timers(DoScan(s, c)) && Scans(DoScan(s, c))
  {
    hide Timers, TimerOk, Bucket, Insert;
    var s' := DoScan(s, c);
    TimersBut(s, s', c, None);
    ScansBut(s, s', c);
  }

  lemma ScanMissWaits(s: State, c: Cpu)
    requires Core(s) && c < |s.cpus| && Waits(s) && s.cpus[c].pc.WakeScan? && !ScanHits(s, s.cpus[c].pc)
    ensures Waits(DoScan(s, c))
  {
    Runner(s, c);
    assert ScanOk(s.cpus[c].pc);
    if s.cpus[c].pc.i >= MAX_THREADS || s.cpus[c].pc.woken >= s.cpus[c].pc.count { ScanEndWatch(s, c); } else { ScanSkipWatch(s, c); }
    ScanMissTimers(s, c);
  }

  lemma WakePushTimers(s: State, c: Cpu)
    requires Shaped(s) && c < |s.cpus| && s.cpus[c].pc.WakePush? && PcReady(s, c) && Timers(s) && Scans(s)
    ensures Timers(DoWakePush(s, c)) && Scans(DoWakePush(s, c))
  {
    var s' := DoWakePush(s, c);
    assert ScanOk(s.cpus[c].pc);
    TimersBut(s, s', c, None);
    ScansBut(s, s', c);
  }

  lemma WakePushWaits(s: State, c: Cpu)
    requires Core(s) && c < |s.cpus| && Waits(s) && s.cpus[c].pc.WakePush? && PcReady(s, c)
    ensures Waits(DoWakePush(s, c))
  {
    hide Bucket, Watched, Timers, TimerOk, Scans;
    Runner(s, c);
    if s.cpus[c].pc.count >= MAX_THREADS { SweptSoFar(s, c); }
    SweepStep(s, DoWakePush(s, c), c);
    WakePushTimers(s, c);
  }

  /** Rousing one thread; the waker's sweep may move on with it. */
  lemma RouseWatch(s: State, s': State, c: Cpu, t: Tid)
    requires Watched(WatchOf(s)) && Acts(s, s', c) && t < MAX_THREADS && t in s.threads && t in s'.threads
    requires s'.threads == s.threads[t := s'.threads[t]] && s'.mem == s.mem
    requires s'.threads[t].st != Blocked && s'.threads[t].owes == s.threads[t].owes && s'.threads[t].home == s.threads[t].home
    requires Owned(s'.cpus[c]) == Owned(s.cpus[c]) && ClaimOf(s.cpus[c].pc) == None && ClaimOf(s'.cpus[c].pc) == None
    ensures WatchOf(s') == WatchOf(s).(asleep := WatchOf(s).asleep[t := None], sweeps := WatchOf(s).sweeps[c := SweepOf(s'.cpus[c].pc)])
    ensures Watched(WatchOf(s).(asleep := WatchOf(s).asleep[t := None]))
  {
    var v := WatchOf(s);
    WatchViews(s, s', c);
    WatchThread(s, s', c, t);
    assert WatchOf(s').debts == v.debts;
    assert WatchOf(s').owned == v.owned && WatchOf(s').claims == v.claims;
    Rouses(v, c, t);
  }

  lemma ScanHitWatch(s: State, c: Cpu)
    requires Shaped(s) && c < |s.cpus| && PcShape(s.cpus[c]) && Watched(WatchOf(s))
    requires s.cpus[c].pc.WakeScan? && ScanHits(s, s.cpus[c].pc)
    ensures Watched(WatchOf(DoScan(s, c)))
  {
    hide Bucket, Watched;
    var s', pc := DoScan(s, c), s.cpus[c].pc;
    RouseWatch(s, s', c, pc.i);
    var v1 := WatchOf(s).(asleep := WatchOf(s).asleep[pc.i := None]);
    if pc.count >= MAX_THREADS {
      SweptSoFar(s, c);
      Sweeps(v1, c, Sweep(pc.a, pc.i + 1));
    } else {
      assert WatchOf(s') == v1;
    }
  }

  lemma ScanHitTimers(s: State, c: Cpu)
    requires Shaped(s) && c < |s.cpus| && s.cpus[c].pc.WakeScan? && ScanHits(s, s.cpus[c].pc) && Timers(s) && Scans(s)
    ensures Timers(DoScan(s, c)) && Scans(DoScan(s, c))
  {
    var s' := DoScan(s, c);
    assert ScanOk(s.cpus[c].pc);
    TimersBut(s, s', c, None);
    ScansBut(s, s', c);
  }

  lemma ScanHitWaits(s: State, c: Cpu)
    requires Core(s) && c < |s.cpus| && Waits(s) && s.cpus[c].pc.WakeScan? && ScanHits(s, s.cpus[c].pc)
    ensures Waits(DoScan(s, c))
  {
    Runner(s, c);
    assert ScanOk(s.cpus[c].pc);
    ScanHitWatch(s, c);
    ScanHitTimers(s, c);
  }

  lemma CheckHitWatch(s: State, c: Cpu)
    requires Shaped(s) && c < |s.cpus| && PcShape(s.cpus[c]) && Watched(WatchOf(s))
    requires s.cpus[c].pc.RescueCheck? && CheckHits(s, s.cpus[c].pc) && s.cpus[c].pc.t < MAX_THREADS
    ensures Watched(WatchOf(DoRescueCheck(s, c)))
  {
    var s', v, t := DoRescueCheck(s, c), WatchOf(s), s.cpus[c].pc.t;
    RouseWatch(s, s', c, t);
    assert WatchOf(s') == v.(asleep := v.asleep[t := None]);
  }

  lemma CheckHitTimers(s: State, c: Cpu)
    requires Shaped(s) && c < |s.cpus| && s.cpus[c].pc.RescueCheck? && CheckHits(s, s.cpus[c].pc) && Timers(s) && Scans(s)
    ensures Timers(DoRescueCheck(s, c)) && Scans(DoRescueCheck(s, c))
  {
    var s' := DoRescueCheck(s, c);
    assert TimerOk(s, s.cpus[c].pc.t);
    TimersBut(s, s', c, Some(s.cpus[c].pc.t));
    ScansBut(s, s', c);
  }

  lemma CheckHitWaits(s: State, c: Cpu)
    requires Core(s) && c < |s.cpus| && Waits(s) && s.cpus[c].pc.RescueCheck? && CheckHits(s, s.cpus[c].pc)
    ensures Waits(DoRescueCheck(s, c))
  {
    Runner(s, c);
    CheckHitWatch(s, c);
    CheckHitTimers(s, c);
  }

  lemma WakeAllWatch(s: State, c: Cpu)
    requires Shaped(s) && c < |s.cpus| && PcShape(s.cpus[c]) && Watched(WatchOf(s))
    requires s.cpus[c].pc.WakeUnlock? && RunsThread(s, c) && s.cpus[c].who.tid < MAX_THREADS && s.cpus[c].pc.count >= MAX_THREADS
    ensures Watched(WatchOf(DoWakeUnlock(s, c)))
  {
    var s', v, t := DoWakeUnlock(s, c), WatchOf(s), s.cpus[c].who.tid;
    WatchViews(s, s', c);
    WatchThread(s, s', c, t);
    Settles(v, c, t);
    assert WatchOf(s').asleep == v.asleep;
    assert WatchOf(s') == With(v, c, None, None, None).(debts := v.debts[t := v.debts[t] - {s.cpus[c].pc.a}]);
  }

  lemma WakeSomeWatch(s: State, c: Cpu)
    requires Shaped(s) && c < |s.cpus| && PcShape(s.cpus[c]) && Watched(WatchOf(s))
    requires s.cpus[c].pc.WakeUnlock? && RunsThread(s, c) && s.cpus[c].who.tid < MAX_THREADS && s.cpus[c].pc.count < MAX_THREADS
    ensures Watched(WatchOf(DoWakeUnlock(s, c)))
  {
    var s', v, t := DoWakeUnlock(s, c), WatchOf(s), s.cpus[c].who.tid;
    WatchViews(s, s', c);
    WatchThread(s, s', c, t);
    assert WatchOf(s').asleep == v.asleep && WatchOf(s').debts == v.debts;
    Ends(v, c);
    assert WatchOf(s') == With(v, c, None, None, None);
  }

  lemma WakeUnlockTimers(s: State, c: Cpu)
    requires Shaped(s) && c < |s.cpus| && s.cpus[c].pc.WakeUnlock? && RunsThread(s, c) && Timers(s) && Scans(s)
    ensures Timers(DoWakeUnlock(s, c)) && Scans(DoWakeUnlock(s, c))
  {
    hide Timers;
    hide TimerOk;
    hide Bucket;
    var s' := DoWakeUnlock(s, c);
    TimersBut(s, s', c, None);
    ScansBut(s, s', c);
  }

  lemma WakeUnlockWaits(s: State, c: Cpu)
    requires Core(s) && c < |s.cpus| && Waits(s) && s.cpus[c].pc.WakeUnlock? && RunsThread(s, c)
    ensures Waits(DoWakeUnlock(s, c))
  {
    Runner(s, c);
    if s.cpus[c].pc.count >= MAX_THREADS { WakeAllWatch(s, c); } else { WakeSomeWatch(s, c); }
    WakeUnlockTimers(s, c);
  }

  // ---- store, spawn, environment ----

  lemma StoreWatch(s: State, c: Cpu, a: Addr, x: nat)
    requires Watched(WatchOf(s)) && Enabled(s, c, Store(a, x)) && s.mem[a] != x && s.cpus[c].who.tid < MAX_THREADS
    ensures Watched(WatchOf(DoStore(s, c, a, x)))
  {
    var s', v, t := DoStore(s, c, a, x), WatchOf(s), s.cpus[c].who.tid;
    WatchViews(s, s', c);
    WatchThread(s, s', c, t);
    Writes(v, t, a, x);
    assert WatchOf(s').asleep == v.asleep;
    assert WatchOf(s').claims == v.claims && WatchOf(s').sweeps == v.sweeps && WatchOf(s').owned == v.owned;
    assert WatchOf(s') == v.(mem := v.mem[a := x], debts := v.debts[t := v.debts[t] + {a}]);
  }

  lemma StoreTimers(s: State, c: Cpu, a: Addr, x: nat)
    requires Enabled(s, c, Store(a, x)) && Timers(s) && Scans(s)
    ensures Timers(DoStore(s, c, a, x)) && Scans(DoStore(s, c, a, x))
  {
    hide Timers, TimerOk;
    var s' := DoStore(s, c, a, x);
    TimersBut(s, s', c, None);
    ScansBut(s, s', c);
  }

  lemma StoreWaits(s: State, c: Cpu, a: Addr, x: nat)
    requires Core(s) && Waits(s) && Enabled(s, c, Store(a, x))
    ensures Waits(DoStore(s, c, a, x))
  {
    if s.mem[a] != x {
      StoreWatch(s, c, a, x);
      StoreTimers(s, c, a, x);
    }
  }

  predicate NeverRan(s: State, t: Tid) {
    forall c :: 0 <= c < |s.cpus| ==> s.cpus[c].who != Thr(t) && !(s.cpus[c].pc.WaitFields? && s.cpus[c].pc.me == t)
  }

  lemma NotInstalled(s: State, t: Tid)
    requires Core(s) && t !in s.threads
    ensures NeverRan(s, t)
  {
    forall c | 0 <= c < |s.cpus| ensures s.cpus[c].who != Thr(t) && !(s.cpus[c].pc.WaitFields? && s.cpus[c].pc.me == t) {
      Runner(s, c);
    }
  }

  lemma NotStarted(s: State, c: Cpu)
    requires Core(s) && c < |s.cpus| && s.cpus[c].pc.SpawnPick?
    ensures NeverRan(s, s.cpus[c].pc.t)
    ensures s.cpus[c].pc.t in s.threads ==> s.threads[s.cpus[c].pc.t].st == Ready
  {
    var t, v := s.cpus[c].pc.t, OfficeOf(s);
    assert C.Unstarted(v, c) && v.desks[c].newborn == Some(t);
    forall d | 0 <= d < |s.cpus| ensures s.cpus[d].who != Thr(t) && !(s.cpus[d].pc.WaitFields? && s.cpus[d].pc.me == t) {
      Runner(s, d);
      assert v.desks[d].who == s.cpus[d].who;
    }
  }

  lemma InstallWatch(s: State, c: Cpu)
    requires Shaped(s) && c < |s.cpus| && CpuOk(s, c) && Watched(WatchOf(s)) && s.cpus[c].pc.SpawnInstall?
    ensures Watched(WatchOf(DoInstall(s, c)))
  {
    var s', v, t := DoInstall(s, c), WatchOf(s), s.cpus[c].pc.t;
    WatchViews(s, s', c);
    WatchThread(s, s', c, t);
    assert WatchOf(s').asleep == v.asleep && WatchOf(s').debts == v.debts;
    assert WatchOf(s').claims == v.claims && WatchOf(s').sweeps == v.sweeps && WatchOf(s').owned == v.owned;
  }

  lemma InstallTimers(s: State, c: Cpu)
    requires Shaped(s) && c < |s.cpus| && CpuOk(s, c) && s.cpus[c].pc.SpawnInstall? && NeverRan(s, s.cpus[c].pc.t) && Timers(s) && Scans(s)
    ensures Timers(DoInstall(s, c)) && Scans(DoInstall(s, c))
  {
    var s' := DoInstall(s, c);
    TimersBut(s, s', c, Some(s.cpus[c].pc.t));
    ScansBut(s, s', c);
  }

  lemma InstallWaits(s: State, c: Cpu)
    requires Core(s) && c < |s.cpus| && Waits(s) && s.cpus[c].pc.SpawnInstall?
    ensures Waits(DoInstall(s, c))
  {
    Runner(s, c);
    NotInstalled(s, s.cpus[c].pc.t);
    InstallWatch(s, c);
    InstallTimers(s, c);
  }

  lemma SettleWatch(s: State, c: Cpu, q: Cpu)
    requires Watched(WatchOf(s)) && Enabled(s, c, SpawnOn(q)) && PcShape(s.cpus[c])
    requires s.threads[s.cpus[c].pc.t].st == Ready && s.cpus[c].pc.t < MAX_THREADS
    ensures Watched(WatchOf(DoSettle(s, c, q)))
  {
    var s', v, t := DoSettle(s, c, q), WatchOf(s), s.cpus[c].pc.t;
    WatchViews(s, s', c);
    WatchThread(s, s', c, t);
    assert WatchOf(s').asleep == v.asleep && WatchOf(s').debts == v.debts;
    assert WatchOf(s').claims == v.claims && WatchOf(s').sweeps == v.sweeps && WatchOf(s').owned == v.owned;
  }

  lemma SettleTimers(s: State, c: Cpu, q: Cpu)
    requires Enabled(s, c, SpawnOn(q)) && NeverRan(s, s.cpus[c].pc.t) && Timers(s) && Scans(s)
    ensures Timers(DoSettle(s, c, q)) && Scans(DoSettle(s, c, q))
  {
    var s' := DoSettle(s, c, q);
    assert TimerOk(s, s.cpus[c].pc.t);
    TimersBut(s, s', c, Some(s.cpus[c].pc.t));
    ScansBut(s, s', c);
  }

  lemma SettleWaits(s: State, c: Cpu, q: Cpu)
    requires Core(s) && Waits(s) && Enabled(s, c, SpawnOn(q))
    ensures Waits(DoSettle(s, c, q))
  {
    Runner(s, c);
    NotStarted(s, c);
    SettleWatch(s, c, q);
    SettleTimers(s, c, q);
  }

  lemma EnvWaits(s: State, e: Env)
    requires Shaped(s) && Waits(s)
    ensures Waits(DoEnv(s, e))
  {
    var s' := DoEnv(s, e);
    assert WatchOf(s').asleep == WatchOf(s).asleep;
    assert WatchOf(s') == WatchOf(s);
    forall t | t in s'.threads ensures TimerOk(s', t) { assert TimerOk(s, t); }
  }
}

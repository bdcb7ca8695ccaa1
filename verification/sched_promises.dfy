/** Promises that span a run: a recorded wake waits for its waiter, and an overdue sleeper that
    the watchdog has flagged is chased until its wait is over. */
module SchedPromises {
  import opened PendingWakes
  import opened SchedState
  import opened SchedInvariant
  import opened SchedWaits
  import opened SchedPreserve
  import opened SchedTheorems
  import C = SchedContexts

  // ---- what a kernel step leaves alone ----

  /** The step moves CPU c only, keeps the watchdog's flags, touches the tables only in a wait's
      check or a wake's scan, and begins marking only from a wait that decided to block. */
  predicate Local(s: State, s': State, c: Cpu) {
    && c < |s.cpus| == |s'.cpus| && s'.cpus == s.cpus[c := s'.cpus[c]] && s'.flags == s.flags
    && (s'.pending == s.pending || s.cpus[c].pc.WaitCheck? || s.cpus[c].pc.WakeScan?)
    && (s'.cpus[c].pc.WaitFields? ==> s.cpus[c].pc.WaitMark?)
  }

  lemma WaitLocal(s: State, c: Cpu)
    requires Enabled(s, c, Proceed)
    ensures s.cpus[c].pc.WaitCheck? ==> Local(s, DoWaitCheck(s, c), c)
    ensures s.cpus[c].pc.WaitMark? ==> Local(s, DoMark(s, c), c)
    ensures s.cpus[c].pc.WaitFields? ==> Local(s, DoFields(s, c), c)
    ensures s.cpus[c].pc.WaitPick? ==> Local(s, DoPick(s, c), c)
    ensures s.cpus[c].pc.WaitHand? ==> Local(s, DoHand(s, c), c)
    ensures s.cpus[c].pc.WaitResult? ==> Local(s, DoResult(s, c), c)
  {
  }

  lemma AcquireLocal(s: State, c: Cpu)
    requires Enabled(s, c, Proceed)
    ensures Waiting(s.cpus[c].pc) ==> Local(s, DoAcquire(s, c), c)
  {
    hide Bucket;
  }

  lemma SwitchLocal(s: State, c: Cpu)
    requires Enabled(s, c, Proceed)
    ensures s.cpus[c].pc.SwitchSave? ==> Local(s, DoSave(s, c), c)
    ensures s.cpus[c].pc.SwitchLoad? ==> Local(s, DoLoad(s, c), c)
    ensures s.cpus[c].pc.Resuming? ==> Local(s, DoRelease(s, c), c)
  {
  }

  lemma IdleLocal(s: State, c: Cpu)
    requires Enabled(s, c, Proceed)
    ensures s.cpus[c].pc.IdleClear? ==> Local(s, DoIdleClear(s, c), c)
    ensures s.cpus[c].pc.IdlePopped? ==> Local(s, DoIdleSwitch(s, c), c)
  {
  }

  lemma WakeLocal(s: State, c: Cpu)
    requires Enabled(s, c, Proceed)
    ensures s.cpus[c].pc.WakeScan? ==> Local(s, DoScan(s, c), c)
    ensures s.cpus[c].pc.WakePush? ==> Local(s, DoWakePush(s, c), c)
    ensures s.cpus[c].pc.WakeUnlock? ==> Local(s, DoWakeUnlock(s, c), c)
  {
  }

  lemma RescueLocal(s: State, c: Cpu)
    requires Enabled(s, c, Proceed)
    ensures s.cpus[c].pc.RescueCheck? ==> Local(s, DoRescueCheck(s, c), c)
    ensures s.cpus[c].pc.RescuePush? ==> Local(s, DoRescuePush(s, c), c)
    ensures s.cpus[c].pc.RescueUnlock? ==> Local(s, Go(SetLock(s, s.cpus[c].pc.b, false), c, Safe), c)
  {
  }

  lemma SpawnLocal(s: State, c: Cpu)
    requires Enabled(s, c, Proceed)
    ensures s.cpus[c].pc.SpawnInstall? ==> Local(s, DoInstall(s, c), c)
    ensures s.cpus[c].pc.SpawnPush? ==> Local(s, DoSpawnPush(s, c), c)
    ensures s.cpus[c].pc.ExitMark? ==> Local(s, DoExitMark(s, c), c)
  {
  }

  lemma ProceedLocal(s: State, c: Cpu)
    requires Enabled(s, c, Proceed)
    ensures Local(s, DoProceed(s, c), c)
  {
    var pc := s.cpus[c].pc;
    if pc.WaitCheck? || pc.WaitMark? || pc.WaitFields? || pc.WaitPick? || pc.WaitHand? || pc.WaitResult? { WaitLocal(s, c); }
    else if Waiting(pc) { AcquireLocal(s, c); }
    else if pc.SwitchSave? || pc.SwitchLoad? || pc.Resuming? { SwitchLocal(s, c); }
    else if pc.IdleClear? || pc.IdlePopped? { IdleLocal(s, c); }
    else if pc.WakeScan? || pc.WakePush? || pc.WakeUnlock? { WakeLocal(s, c); }
    else if pc.SpawnInstall? || pc.SpawnPush? || pc.ExitMark? { SpawnLocal(s, c); }
    else { RescueLocal(s, c); }
  }

  /** The other steps leave safe points, or place a new thread. */
  lemma EntryLocal(s: State, c: Cpu, act: Action)
    requires Enabled(s, c, act) && !act.Proceed? && !act.Drain? && !act.Yield?
    ensures Local(s, Do(s, c, act), c)
  {
  }

  lemma YieldLocal(s: State, c: Cpu)
    requires Enabled(s, c, Yield)
    ensures Local(s, DoYield(s, c), c)
  {
  }

  lemma StepLocal(s: State, c: Cpu, act: Action)
    requires Enabled(s, c, act) && !act.Drain?
    ensures Local(s, Do(s, c, act), c)
  {
    if act.Proceed? { ProceedLocal(s, c); }
    else if act.Yield? { YieldLocal(s, c); }
    else { EntryLocal(s, c, act); }
  }

  lemma RunShaped(run: seq<State>, i: nat)
    requires Run(run) && Init(run[0]) && i < |run|
    ensures Shaped(run[i])
  {
    hide Next, Init;
    RunInv(run, i);
  }

  // ---- pending wakes ----

  /** The step from s to s' is a wait on `a` taking a recorded wake. */
  predicate Takes(s: State, s': State, a: Addr) {
    Shaped(s) && exists c: Cpu :: c < |s.cpus| && s.cpus[c].pc.WaitCheck? && s.cpus[c].pc.a == a && s' == DoWaitCheck(s, c)
  }

  predicate Recorded(s: State, a: Addr) {
    |s.pending| == FUTEX_BUCKETS && Has(s.pending[Bucket(a)], a)
  }

  lemma CheckKeeps(s: State, c: Cpu, a: Addr)
    requires Shaped(s) && c < |s.cpus| && s.cpus[c].pc.WaitCheck? && s.cpus[c].pc.a != a && Recorded(s, a)
    ensures Recorded(DoWaitCheck(s, c), a)
  {
    ConsumeKeeps(s.pending[Bucket(a)], s.cpus[c].pc.a, a);
  }

  lemma ScanKeeps(s: State, c: Cpu, a: Addr)
    requires Shaped(s) && c < |s.cpus| && s.cpus[c].pc.WakeScan? && a != 0 && Recorded(s, a)
    ensures Recorded(DoScan(s, c), a)
  {
    InsertKeeps(s.pending[Bucket(a)], s.cpus[c].pc.a, a);
  }

  /** What a step does to the tables, without saying which step it was. */
  lemma TableWriters(s: State, c: Cpu, act: Action, s': State)
    requires Enabled(s, c, act) && s' == Do(s, c, act)
    ensures
      || s'.pending == s.pending
      || (s.cpus[c].pc.WaitCheck? && s' == DoWaitCheck(s, c))
      || (s.cpus[c].pc.WakeScan? && s' == DoScan(s, c))
  {
    if !act.Drain? { StepLocal(s, c, act); }
  }

  lemma WriteKeepsRecord(s: State, c: Cpu, act: Action, s': State, a: Addr)
    requires Enabled(s, c, act) && s' == Do(s, c, act) && a != 0 && Recorded(s, a) && !Takes(s, s', a)
    ensures Recorded(s', a)
  {
    TableWriters(s, c, act, s');
    if s'.pending != s.pending {
      if s.cpus[c].pc.WaitCheck? { CheckKeeps(s, c, a); } else { ScanKeeps(s, c, a); }
    }
  }

  lemma NextKeepsRecord(s: State, s': State, a: Addr)
    requires Shaped(s) && Next(s, s') && a != 0 && Recorded(s, a) && !Takes(s, s', a)
    ensures Recorded(s', a)
  {
    if exists c: Cpu, act: Action :: Enabled(s, c, act) && s' == Do(s, c, act) {
      var c: Cpu, act: Action :| Enabled(s, c, act) && s' == Do(s, c, act);
      WriteKeepsRecord(s, c, act, s', a);
    }
  }

  /** A recorded wake stays recorded, whatever else happens, until a wait on its address takes it. */
  lemma {:induction false} RecordPersists(run: seq<State>, i: nat, j: nat, a: Addr)
    requires Run(run) && Init(run[0]) && i <= j < |run| && a != 0 && Recorded(run[i], a)
    requires forall k :: i <= k < j ==> !Takes(run[k], run[k + 1], a)
    ensures Recorded(run[j], a)
    decreases j - i
  {
    if i < j {
      hide Next, Init, Takes, Recorded;
      RunShaped(run, i);
      assert Next(run[i], run[i + 1]);
      NextKeepsRecord(run[i], run[i + 1], a);
      RecordPersists(run, i + 1, j, a);
    }
  }

  predicate TablesOk(s: State) {
    |s.pending| == FUTEX_BUCKETS && forall b :: 0 <= b < FUTEX_BUCKETS ==> |s.pending[b]| == SLOTS && OneShot(s.pending[b])
  }

  lemma InsertOneShot(tbl: seq<nat>, a: nat)
    requires OneShot(tbl)
    ensures OneShot(Insert(tbl, a))
  {
    if a == 0 { } else { InsertRecords(tbl, a); }
  }

  lemma ConsumeOneShot(tbl: seq<nat>, a: nat)
    requires OneShot(tbl)
    ensures OneShot(Consume(tbl, a))
  {
    if a == 0 { } else { ConsumeRemoves(tbl, a); }
  }

  lemma CheckTables(s: State, c: Cpu)
    requires Shaped(s) && c < |s.cpus| && s.cpus[c].pc.WaitCheck? && TablesOk(s)
    ensures TablesOk(DoWaitCheck(s, c))
  {
    ConsumeOneShot(s.pending[Bucket(s.cpus[c].pc.a)], s.cpus[c].pc.a);
  }

  lemma ScanTables(s: State, c: Cpu)
    requires Shaped(s) && c < |s.cpus| && s.cpus[c].pc.WakeScan? && TablesOk(s)
    ensures TablesOk(DoScan(s, c))
  {
    InsertOneShot(s.pending[Bucket(s.cpus[c].pc.a)], s.cpus[c].pc.a);
  }

  lemma NextKeepsTables(s: State, s': State)
    requires Shaped(s) && Next(s, s') && TablesOk(s)
    ensures TablesOk(s')
  {
    if exists c: Cpu, act: Action :: Enabled(s, c, act) && s' == Do(s, c, act) {
      var c: Cpu, act: Action :| Enabled(s, c, act) && s' == Do(s, c, act);
      TableWriters(s, c, act, s');
      if s'.pending != s.pending {
        if s.cpus[c].pc.WaitCheck? { CheckTables(s, c); } else { ScanTables(s, c); }
      }
    }
  }

  lemma {:induction false} RunTables(run: seq<State>, i: nat)
    requires Run(run) && Init(run[0]) && i < |run|
    ensures TablesOk(run[i])
  {
    if i > 0 {
      hide Next, TablesOk, Init;
      RunTables(run, i - 1);
      RunShaped(run, i - 1);
      assert Next(run[i - 1], run[i - 1 + 1]);
      NextKeepsTables(run[i - 1], run[i]);
    } else {
      hide Next;
    }
  }

  lemma ReachableTables(s: State)
    requires Reachable(s)
    ensures TablesOk(s)
  {
    var run :| Run(run) && Init(run[0]) && run[|run| - 1] == s;
    RunTables(run, |run| - 1);
  }

  /** A wake that woke nobody is recorded, unless eight other addresses are recorded in its bucket. */
  lemma WakeRecords(s: State, c: Cpu)
    requires Reachable(s) && c < |s.cpus| && s.cpus[c].pc.WakeScan? && s.cpus[c].pc.a != 0
    requires s.cpus[c].pc.woken == 0 && (s.cpus[c].pc.i >= MAX_THREADS || s.cpus[c].pc.count == 0)
    ensures Shaped(s)
    ensures var a, tbl := s.cpus[c].pc.a, s.pending[Bucket(s.cpus[c].pc.a)];
      Recorded(DoScan(s, c), a) <==> Has(tbl, a) || |PendingWakes.Recorded(tbl)| < 8
  {
    ReachableInv(s);
    ReachableTables(s);
    InsertRecords(s.pending[Bucket(s.cpus[c].pc.a)], s.cpus[c].pc.a);
    RoomIff(s.pending[Bucket(s.cpus[c].pc.a)]);
  }

  lemma TakeFacts(s: State, c: Cpu)
    requires Shaped(s) && c < |s.cpus| && RunsThread(s, c) && TablesOk(s)
    requires s.cpus[c].pc.WaitCheck? && s.cpus[c].pc.a != 0 && Recorded(s, s.cpus[c].pc.a)
    ensures var t, s' := s.cpus[c].who.tid, DoWaitCheck(s, c);
      && s'.cpus[c].pc == Safe && t in s'.threads && s'.threads[t] == s.threads[t].(ret := 0)
      && !Recorded(s', s.cpus[c].pc.a)
  {
    ConsumeRemoves(s.pending[Bucket(s.cpus[c].pc.a)], s.cpus[c].pc.a);
  }

  /** The next wait on a recorded address returns 0 without blocking and uses the record up. */
  lemma WaitTakesRecord(s: State, c: Cpu)
    requires Reachable(s) && c < |s.cpus| && s.cpus[c].pc.WaitCheck?
    requires s.cpus[c].pc.a != 0 && Recorded(s, s.cpus[c].pc.a)
    ensures Shaped(s) && s.cpus[c].who.Thr?
    ensures var t, s' := s.cpus[c].who.tid, DoWaitCheck(s, c);
      && t in s.threads && s'.cpus[c].pc == Safe && t in s'.threads && s'.threads[t] == s.threads[t].(ret := 0)
      && !Recorded(s', s.cpus[c].pc.a)
  {
    ReachableCore(s);
    assert CpuOk(s, c);
    RunsOnceAtHome(s, c, c, s.cpus[c].who.tid);
    ReachableTables(s);
    TakeFacts(s, c);
  }

  lemma RunReachable(run: seq<State>, i: nat)
    requires Run(run) && Init(run[0]) && i < |run|
    ensures Reachable(run[i])
  {
    hide Init, Next;
    var part := run[..i + 1];
    assert part[0] == run[0] && part[|part| - 1] == run[i];
    forall k | 0 <= k < |part| - 1 ensures Next(part[k], part[k + 1]) { assert Next(run[k], run[k + 1]); }
    assert Run(part);
  }

  /** The table of a's bucket already holds a, or holds fewer than eight addresses. */
  ghost predicate Room(s: State, a: Addr) {
    && |s.pending| == FUTEX_BUCKETS
    && var tbl := s.pending[Bucket(a)]; Has(tbl, a) || |PendingWakes.Recorded(tbl)| < 8
  }

  /** Sixteen consecutive words are in sixteen different buckets. */
  lemma BucketsSpread(a: Addr, i: nat, j: nat)
    requires i < j < 16
    ensures Bucket(a + 4 * i) != Bucket(a + 4 * j)
  {
    assert (a + 4 * i) / 4 == a / 4 + i && (a + 4 * j) / 4 == a / 4 + j;
  }

  /** The step of CPU c from s is the end of a wake on `a` that woke nobody. */
  predicate WokeNobody(s: State, s': State, c: Cpu, a: Addr) {
    && Shaped(s) && c < |s.cpus| && s.cpus[c].pc.WakeScan? && s.cpus[c].pc.a == a && s' == DoScan(s, c)
    && s.cpus[c].pc.woken == 0 && (s.cpus[c].pc.i >= MAX_THREADS || s.cpus[c].pc.count == 0)
  }

  /** The whole promise: a wake on `a` that woke nobody while the table had room makes the next wait
      on `a`, however much later and on whichever CPU, return 0 without blocking. */
  lemma WakeIsNotLost(run: seq<State>, i: nat, c: Cpu, j: nat, d: Cpu, a: Addr)
    requires Run(run) && Init(run[0]) && i < j < |run| && a != 0
    requires WokeNobody(run[i], run[i + 1], c, a) && Room(run[i], a)
    requires d < |run[j].cpus| && run[j].cpus[d].pc.WaitCheck? && run[j].cpus[d].pc.a == a
    requires forall k :: i < k < j ==> !Takes(run[k], run[k + 1], a)
    ensures Shaped(run[j]) && run[j].cpus[d].who.Thr?
    ensures var t, s' := run[j].cpus[d].who.tid, DoWaitCheck(run[j], d);
      && t in run[j].threads && s'.cpus[d].pc == Safe && t in s'.threads && s'.threads[t] == run[j].threads[t].(ret := 0)
      && !Recorded(s', a)
  {
    hide Init, Next, Shaped, DoScan, DoWaitCheck, Takes, Bucket, Recorded, Has;
    RunReachable(run, i);
    WakeRecords(run[i], c);
    RecordPersists(run, i + 1, j, a);
    RunReachable(run, j);
    WaitTakesRecord(run[j], d);
  }

  // ---- the watchdog ----

  predicate Pursues(pc: Pc, t: Tid) {
    (pc.RescueLock? || pc.RescueTLock? || pc.RescueCheck?) && pc.t == t
  }

  predicate Pursued(s: State, t: Tid) {
    t in s.flags || exists c: Cpu :: c < |s.cpus| && Pursues(s.cpus[c].pc, t)
  }

  predicate Unmarked(s: State, t: Tid) {
    forall c: Cpu :: c < |s.cpus| && s.cpus[c].pc.WaitFields? ==> s.cpus[c].pc.me != t
  }

  /** Wait number n of thread t is over, or something is on its way to end it. */
  predicate Chased(s: State, t: Tid, n: nat) {
    && t in s.threads && s.threads[t].waitNo >= n
    && (s.threads[t].waitNo == n && s.threads[t].st == Blocked ==>
          s.threads[t].addr != 0 && Unmarked(s, t) && Pursued(s, t))
  }

  predicate SameSleep(x: Thread, y: Thread) {
    y.addr == x.addr && y.val == x.val && y.since == x.since
  }

  /** How one step changes one thread, as far as its wait is concerned: a new wait begins, or this one
      goes on as it was, or it ends; once it has ended its rescue stands. */
  predicate Advances(x: Thread, y: Thread) {
    || y.waitNo > x.waitNo
    || (&& y.waitNo == x.waitNo && y.waitDeadline == x.waitDeadline
        && (y.st == Blocked ==> x.st == Blocked && SameSleep(x, y))
        && (x.st != Blocked ==> y.rescue == x.rescue))
  }

  lemma WaitAdvances(s: State, c: Cpu, t: Tid)
    requires Shaped(s) && c < |s.cpus| && t in s.threads && PcReady(s, c)
    requires s.cpus[c].pc.WaitFields? ==> s.cpus[c].pc.me != t
    ensures s.cpus[c].pc.WaitCheck? ==> t in DoWaitCheck(s, c).threads && Advances(s.threads[t], DoWaitCheck(s, c).threads[t])
    ensures s.cpus[c].pc.WaitMark? ==> t in DoMark(s, c).threads && Advances(s.threads[t], DoMark(s, c).threads[t])
    ensures s.cpus[c].pc.WaitFields? ==> t in DoFields(s, c).threads && Advances(s.threads[t], DoFields(s, c).threads[t])
    ensures s.cpus[c].pc.WaitResult? ==> t in DoResult(s, c).threads && Advances(s.threads[t], DoResult(s, c).threads[t])
    ensures s.cpus[c].pc.SwitchSave? ==> t in DoSave(s, c).threads && Advances(s.threads[t], DoSave(s, c).threads[t])
  {
  }

  lemma WakeAdvances(s: State, c: Cpu, t: Tid)
    requires Shaped(s) && c < |s.cpus| && t in s.threads && PcReady(s, c)
    requires s.cpus[c].pc.SpawnInstall? ==> s.cpus[c].pc.t != t
    ensures s.cpus[c].pc.WakeScan? ==> t in DoScan(s, c).threads && Advances(s.threads[t], DoScan(s, c).threads[t])
    ensures s.cpus[c].pc.WakeUnlock? ==> t in DoWakeUnlock(s, c).threads && Advances(s.threads[t], DoWakeUnlock(s, c).threads[t])
    ensures s.cpus[c].pc.RescueCheck? ==> t in DoRescueCheck(s, c).threads && Advances(s.threads[t], DoRescueCheck(s, c).threads[t])
    ensures s.cpus[c].pc.SpawnInstall? ==> t in DoInstall(s, c).threads && Advances(s.threads[t], DoInstall(s, c).threads[t])
    ensures s.cpus[c].pc.ExitMark? ==> t in DoExitMark(s, c).threads && Advances(s.threads[t], DoExitMark(s, c).threads[t])
  {
  }

  lemma ProceedAdvances(s: State, c: Cpu, t: Tid)
    requires Enabled(s, c, Proceed) && t in s.threads
    requires s.cpus[c].pc.WaitFields? ==> s.cpus[c].pc.me != t
    requires s.cpus[c].pc.SpawnInstall? ==> s.cpus[c].pc.t != t
    ensures t in DoProceed(s, c).threads && Advances(s.threads[t], DoProceed(s, c).threads[t])
  {
    WaitAdvances(s, c, t);
    WakeAdvances(s, c, t);
  }

  lemma StepAdvances(s: State, c: Cpu, act: Action, t: Tid)
    requires Enabled(s, c, act) && t in s.threads
    requires s.cpus[c].pc.WaitFields? ==> s.cpus[c].pc.me != t
    requires s.cpus[c].pc.SpawnInstall? ==> s.cpus[c].pc.t != t
    ensures t in Do(s, c, act).threads && Advances(s.threads[t], Do(s, c, act).threads[t])
  {
    if act.Proceed? { ProceedAdvances(s, c, t); }
  }

  /** The drain of a flagged sleeper goes after it. */
  lemma DrainPursues(s: State, c: Cpu, u: Tid, t: Tid)
    requires Enabled(s, c, Drain(u)) && t in s.threads && s.threads[t].st == Blocked && s.threads[t].addr != 0
    requires Pursued(s, t)
    ensures Pursued(DoDrain(s, c, u), t)
  {
    var s' := DoDrain(s, c, u);
    if t in s.flags {
      if u == t { assert Pursues(s'.cpus[c].pc, t); }
    } else {
      var d: Cpu :| d < |s.cpus| && Pursues(s.cpus[d].pc, t);
      assert Pursues(s'.cpus[d].pc, t);
    }
  }

  /** The pursuer keeps at it until the sleeper is up. */
  lemma PursuitEnds(s: State, c: Cpu, act: Action, t: Tid)
    requires Enabled(s, c, act) && t in s.threads && s.threads[t].st == Blocked && Pursues(s.cpus[c].pc, t)
    ensures t in Do(s, c, act).threads && (Do(s, c, act).threads[t].st != Blocked || Pursues(Do(s, c, act).cpus[c].pc, t))
  {
  }

  lemma StepPursued(s: State, c: Cpu, act: Action, s': State, t: Tid)
    requires Enabled(s, c, act) && s' == Do(s, c, act)
    requires t in s.threads && s.threads[t].st == Blocked && s.threads[t].addr != 0 && Pursued(s, t)
    requires t in s'.threads && s'.threads[t].st == Blocked
    ensures Pursued(s', t)
  {
    if act.Drain? {
      DrainPursues(s, c, act.t, t);
    } else {
      StepLocal(s, c, act);
      if t !in s.flags {
        var d: Cpu :| d < |s.cpus| && Pursues(s.cpus[d].pc, t);
        if d == c { PursuitEnds(s, c, act, t); }
        assert Pursues(s'.cpus[d].pc, t);
      }
    }
  }

  lemma MarkCounts(s: State, c: Cpu)
    requires Enabled(s, c, Proceed) && s.cpus[c].pc.WaitMark?
    ensures var s', me := DoProceed(s, c), s.cpus[c].pc.me;
      && me in s'.threads && s'.threads[me].waitNo == s.threads[me].waitNo + 1
      && s'.cpus[c].pc.WaitFields? && s'.cpus[c].pc.me == me
  {
  }

  /** Marking starts a new wait, so a wait that was not being marked never is. */
  lemma StepUnmarked(s: State, c: Cpu, act: Action, s': State, t: Tid)
    requires Enabled(s, c, act) && s' == Do(s, c, act) && t in s.threads && Unmarked(s, t)
    requires t in s'.threads && s'.threads[t].waitNo == s.threads[t].waitNo
    ensures Unmarked(s', t)
  {
    if !act.Drain? {
      StepLocal(s, c, act);
      if s.cpus[c].pc.WaitMark? { MarkCounts(s, c); }
    }
  }

  lemma StepChased(s: State, c: Cpu, act: Action, t: Tid, n: nat)
    requires Core(s) && Enabled(s, c, act) && Chased(s, t, n)
    ensures Chased(Do(s, c, act), t, n)
  {
    var s' := Do(s, c, act);
    assert CpuOk(s, c);
    if s.cpus[c].pc.WaitFields? && s.cpus[c].pc.me == t {
      FieldsChased(s, c, act, t, n);
    } else {
      StepAdvances(s, c, act, t);
      if s'.threads[t].waitNo == n && s'.threads[t].st == Blocked {
        StepPursued(s, c, act, s', t);
        StepUnmarked(s, c, act, s', t);
      }
    }
  }

  lemma FieldsChased(s: State, c: Cpu, act: Action, t: Tid, n: nat)
    requires Enabled(s, c, act) && Chased(s, t, n) && s.cpus[c].pc.WaitFields? && s.cpus[c].pc.me == t
    ensures Chased(Do(s, c, act), t, n)
  {
    assert Do(s, c, act) == DoFields(s, c);
  }

  lemma NextChased(s: State, s': State, t: Tid, n: nat)
    requires Core(s) && Next(s, s') && Chased(s, t, n)
    ensures Chased(s', t, n)
  {
    if exists c: Cpu, act: Action :: Enabled(s, c, act) && s' == Do(s, c, act) {
      var c: Cpu, act: Action :| Enabled(s, c, act) && s' == Do(s, c, act);
      StepChased(s, c, act, t, n);
    } else {
      var e: Env :| s' == DoEnv(s, e);
      EnvChased(s, e, t, n);
    }
  }

  lemma EnvChased(s: State, e: Env, t: Tid, n: nat)
    requires Chased(s, t, n)
    ensures Chased(DoEnv(s, e), t, n)
  {
    var s' := DoEnv(s, e);
    if s'.threads[t].waitNo == n && s'.threads[t].st == Blocked && t !in s.flags {
      var c: Cpu :| c < |s.cpus| && Pursues(s.cpus[c].pc, t);
      assert Pursues(s'.cpus[c].pc, t);
    }
  }

  lemma {:induction false} ChasedToTheEnd(run: seq<State>, i: nat, j: nat, t: Tid, n: nat)
    requires Run(run) && Init(run[0]) && i <= j < |run| && Chased(run[i], t, n)
    ensures Chased(run[j], t, n)
    decreases j - i
  {
    if i < j {
      RunInv(run, i);
      assert Next(run[i], run[i + 1]);
      NextChased(run[i], run[i + 1], t, n);
      ChasedToTheEnd(run, i + 1, j, t, n);
    }
  }

  lemma AsleepUnmarked(s: State, t: Tid)
    requires Core(s) && Asleep(s, t)
    ensures Unmarked(s, t)
  {
    forall c: Cpu | c < |s.cpus| && s.cpus[c].pc.WaitFields? ensures s.cpus[c].pc.me != t {
      assert CpuOk(s, c);
      assert C.RunsHome(OfficeOf(s), c) && OfficeOf(s).desks[c].who == s.cpus[c].who;
    }
  }

  /** A watchdog tick flags a sleeper exactly if its word has changed, or the deadline its caller gave
      has passed, or it gave none and has slept for five seconds. */
  lemma WatchdogFlags(s: State, t: Tid)
    requires Reachable(s) && Asleep(s, t) && s.threads[t].addr != 0
    ensures s.threads[t].addr in s.mem
    ensures var th := s.threads[t];
      t in DoEnv(s, Watchdog).flags <==>
        || t in s.flags || s.mem[th.addr] != th.val
        || (th.waitDeadline != 0 && s.now >= th.waitDeadline)
        || (th.waitDeadline == 0 && th.since != 0 && s.now >= th.since + 5_000_000_000)
  {
    NoLostWake(s, t);
    ReachableInv(s);
    assert TimerOk(s, t);
  }

  /** It flags nobody who is not Blocked on some word. */
  lemma WatchdogSpares(s: State, t: Tid)
    requires t in s.threads && (s.threads[t].st != Blocked || s.threads[t].addr == 0)
    ensures t in DoEnv(s, Watchdog).flags <==> t in s.flags
  {
  }

  /** From the moment a sleeper is flagged, at every later moment it has left that wait, or its flag is
      still to be drained, or a CPU is in the middle of rescuing it.  So once the flag is drained
      and no rescue is under way, it is not Blocked in that wait. */
  lemma FlaggedIsRescued(run: seq<State>, i: nat, j: nat, t: Tid)
    requires Run(run) && Init(run[0]) && i <= j < |run|
    requires Asleep(run[i], t) && run[i].threads[t].addr != 0 && t in run[i].flags
    ensures t in run[j].threads && run[j].threads[t].waitNo >= run[i].threads[t].waitNo
    ensures !Pursued(run[j], t) && run[j].threads[t].waitNo == run[i].threads[t].waitNo ==>
      run[j].threads[t].st != Blocked
  {
    RunInv(run, i);
    AsleepUnmarked(run[i], t);
    ChasedToTheEnd(run, i, j, t, run[i].threads[t].waitNo);
  }
}

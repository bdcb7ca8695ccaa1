/** Every transition keeps the whole invariant, and so does every run. */
module SchedPreserve {
  import opened Wrappers
  import opened PendingWakes
  import opened SchedState
  import opened SchedInvariant
  import opened SchedCore
  import opened SchedSteps
  import opened SchedWaits
  import opened SchedCalm
  import opened SchedWaking
  import T = SchedTokens
  import C = SchedContexts
  import L = SchedLocks

  predicate Inv(s: State) {
    Core(s) && Waits(s)
  }

  lemma InitInv(s: State)
    requires Init(s)
    ensures Inv(s)
  {
    InitCore(s);
    var v := WatchOf(s);
    assert forall t: Tid :: t < MAX_THREADS ==> SleepOf(s, t) == None;
    assert TimerOk(s, 0);
  }

  /** The core invariant and calmness together are enough. */
  lemma CalmInv(s: State, s': State, c: Cpu)
    requires Inv(s) && Core(s') && Calm(s, s', c)
    ensures Inv(s')
  {
    CalmKeeps(s, s', c);
  }

  lemma QuietInv(s: State, s': State, c: Cpu)
    requires Inv(s) && Quiet(s, s', c) && Calm(s, s', c)
    ensures Inv(s')
  {
    QuietCore(s, s', c);
    CalmInv(s, s', c);
  }

  lemma CallInv(s: State, c: Cpu, act: Action)
    requires Inv(s) && Enabled(s, c, act) && (act.CallWait? || act.CallWake? || act.CallSpawn? || act.CallExit?)
    ensures Inv(Do(s, c, act))
  {
    Runner(s, c);
    hide Inv, Bucket;
    match act
    case CallWait(a, v, dl) => CallQuiet(s, c, WaitLock(a, v, dl)); CallCalm(s, c, WaitLock(a, v, dl)); QuietInv(s, Do(s, c, act), c);
    case CallWake(a, n) => CallQuiet(s, c, WakeLock(a, n)); CallCalm(s, c, WakeLock(a, n)); QuietInv(s, Do(s, c, act), c);
    case CallSpawn =>
      if s.nextTid < MAX_THREADS { SpawnQuietOk(s, c); } else { SpawnQuietFull(s, c); }
      SpawnCalm(s, c);
      QuietInv(s, Do(s, c, act), c);
    case CallExit => ExitQuiet(s, c); ExitCalm(s, c); QuietInv(s, Do(s, c, act), c);
  }

  lemma DrainInv(s: State, c: Cpu, t: Tid)
    requires Inv(s) && Enabled(s, c, Drain(t))
    ensures Inv(DoDrain(s, c, t))
  {
    Runner(s, c);
    if t in s.threads && s.threads[t].st == Blocked && s.threads[t].addr != 0 { DrainQuietHit(s, c, t); }
    else { DrainQuietMiss(s, c, t); }
    DrainCalm(s, c, t);
    QuietInv(s, DoDrain(s, c, t), c);
  }

  lemma YieldInv(s: State, c: Cpu)
    requires Inv(s) && Enabled(s, c, Yield)
    ensures Inv(DoYield(s, c))
  {
    Runner(s, c);
    if s.queues[c] != [] {
      if s.cpus[c].current == None { YieldBootCore(s, c); } else { YieldThreadCore(s, c); }
      YieldCalm(s, c);
      CalmInv(s, DoYield(s, c), c);
    }
  }

  lemma IdlePopInv(s: State, c: Cpu)
    requires Inv(s) && Enabled(s, c, IdlePop)
    ensures Inv(DoIdlePop(s, c))
  {
    if s.queues[c] != [] {
      IdlePopCore(s, c);
      IdlePopCalm(s, c);
      CalmInv(s, DoIdlePop(s, c), c);
    }
  }

  lemma StoreInv(s: State, c: Cpu, a: Addr, v: nat)
    requires Inv(s) && Enabled(s, c, Store(a, v))
    ensures Inv(DoStore(s, c, a, v))
  {
    Runner(s, c);
    StoreQuiet(s, c, a, v);
    QuietCore(s, DoStore(s, c, a, v), c);
    StoreWaits(s, c, a, v);
  }

  lemma ComputeInv(s: State, c: Cpu, x: nat)
    requires Inv(s) && Enabled(s, c, Compute(x))
    ensures Inv(DoCompute(s, c, x))
  {
    ComputeCore(s, c, x);
    ComputeCalm(s, c, x);
    CalmInv(s, DoCompute(s, c, x), c);
  }

  lemma AcquireInv(s: State, c: Cpu)
    requires Inv(s) && c < |s.cpus| && Waiting(s.cpus[c].pc) && LockFree(s, s.cpus[c].pc)
    ensures Inv(DoAcquire(s, c))
  {
    var pc := s.cpus[c].pc;
    Runner(s, c);
    if pc.WaitLock? || pc.WakeLock? { AcquireBucketQuiet(s, c); }
    else if pc.RescueLock? || pc.RescueTLock? { AcquireRescueQuiet(s, c); }
    else { AcquireThreadQuiet(s, c); }
    QuietCore(s, DoAcquire(s, c), c);
    if pc.WakeTLock? { AcquireWakeWaits(s, c); }
    else { AcquireCalm(s, c); CalmInv(s, DoAcquire(s, c), c); }
  }

  lemma WaitCheckInv(s: State, c: Cpu)
    requires Inv(s) && c < |s.cpus| && s.cpus[c].pc.WaitCheck?
    ensures Inv(DoWaitCheck(s, c))
  {
    Runner(s, c);
    if WaitVerdict(s, s.cpus[c]).Some? {
      WaitCheckQuietReturn(s, c);
      ReturnCalm(s, c);
      QuietInv(s, DoWaitCheck(s, c), c);
    } else {
      WaitCheckQuietBlock(s, c);
      QuietCore(s, DoWaitCheck(s, c), c);
      BlockWaits(s, c);
    }
  }

  lemma WaiterInv(s: State, c: Cpu)
    requires Inv(s) && c < |s.cpus| && PcReady(s, c)
    ensures s.cpus[c].pc.WaitMark? ==> Inv(DoMark(s, c))
    ensures s.cpus[c].pc.WaitFields? ==> Inv(DoFields(s, c))
    ensures s.cpus[c].pc.WaitResult? ==> Inv(DoResult(s, c))
  {
    Runner(s, c);
    if s.cpus[c].pc.WaitMark? { MarkCore(s, c); MarkWaits(s, c); }
    if s.cpus[c].pc.WaitFields? { FieldsQuiet(s, c); QuietCore(s, DoFields(s, c), c); FieldsWaits(s, c); }
    if s.cpus[c].pc.WaitResult? { ResultQuiet(s, c); QuietCore(s, DoResult(s, c), c); ResultWaits(s, c); }
  }

  lemma SwitchInv(s: State, c: Cpu)
    requires Inv(s) && c < |s.cpus| && PcReady(s, c)
    ensures s.cpus[c].pc.SwitchSave? ==> Inv(DoSave(s, c))
    ensures s.cpus[c].pc.SwitchLoad? ==> Inv(DoLoad(s, c))
  {
    Runner(s, c);
    if s.cpus[c].pc.SwitchSave? {
      if s.cpus[c].pc.from.Thr? { SaveThreadCore(s, c); } else { SaveIdleCore(s, c); }
      SaveCalm(s, c);
      CalmInv(s, DoSave(s, c), c);
    }
    if s.cpus[c].pc.SwitchLoad? {
      if s.cpus[c].pc.to.Thr? { LoadThreadCore(s, c); } else { LoadIdleCore(s, c); }
      LoadCalm(s, c);
      CalmInv(s, DoLoad(s, c), c);
    }
  }

  lemma PickInv(s: State, c: Cpu)
    requires Inv(s) && c < |s.cpus|
    ensures s.cpus[c].pc.WaitPick? ==> Inv(DoPick(s, c))
    ensures s.cpus[c].pc.WaitHand? ==> Inv(DoHand(s, c))
  {
    if s.cpus[c].pc.WaitPick? { PickCore(s, c); PickCalm(s, c); CalmInv(s, DoPick(s, c), c); }
    if s.cpus[c].pc.WaitHand? { HandCore(s, c); HandCalm(s, c); CalmInv(s, DoHand(s, c), c); }
  }

  lemma ResumeInv(s: State, c: Cpu)
    requires Inv(s) && c < |s.cpus| && PcReady(s, c)
    ensures s.cpus[c].pc.Resuming? ==> Inv(DoRelease(s, c))
    ensures s.cpus[c].pc.IdleClear? ==> Inv(DoIdleClear(s, c))
    ensures s.cpus[c].pc.IdlePopped? ==> Inv(DoIdleSwitch(s, c))
  {
    Runner(s, c);
    IdleCalm(s, c);
    if s.cpus[c].pc.Resuming? { ReleaseQuiet(s, c); ReleaseCalm(s, c); QuietInv(s, DoRelease(s, c), c); }
    if s.cpus[c].pc.IdleClear? { IdleClearQuiet(s, c); QuietInv(s, DoIdleClear(s, c), c); }
    if s.cpus[c].pc.IdlePopped? { IdleSwitchCore(s, c); CalmInv(s, DoIdleSwitch(s, c), c); }
  }

  lemma LockHeld(s: State, c: Cpu)
    requires Core(s) && c < |s.cpus| && HoldsT(s.cpus[c].pc).Some?
    ensures s.tlock
  {
    assert ThreadLock(s).owned[c] == Some(0);
  }

  lemma ScanInv(s: State, c: Cpu)
    requires Inv(s) && c < |s.cpus| && s.cpus[c].pc.WakeScan?
    ensures Inv(DoScan(s, c))
  {
    Runner(s, c);
    LockHeld(s, c);
    if ScanHits(s, s.cpus[c].pc) {
      ScanHitCore(s, c);
      ScanHitWaits(s, c);
    } else {
      if s.cpus[c].pc.i >= MAX_THREADS || s.cpus[c].pc.woken >= s.cpus[c].pc.count { ScanQuietEnd(s, c); }
      else { ScanQuietSkip(s, c); }
      QuietCore(s, DoScan(s, c), c);
      ScanMissWaits(s, c);
    }
  }

  lemma WakerInv(s: State, c: Cpu)
    requires Inv(s) && c < |s.cpus| && PcReady(s, c)
    ensures s.cpus[c].pc.WakePush? ==> Inv(DoWakePush(s, c))
    ensures s.cpus[c].pc.WakeUnlock? ==> Inv(DoWakeUnlock(s, c))
  {
    Runner(s, c);
    if s.cpus[c].pc.WakePush? { WakePushCore(s, c); WakePushWaits(s, c); }
    if s.cpus[c].pc.WakeUnlock? {
      if s.cpus[c].pc.count >= MAX_THREADS { WakeUnlockQuietAll(s, c); } else { WakeUnlockQuietSome(s, c); }
      QuietCore(s, DoWakeUnlock(s, c), c);
      WakeUnlockWaits(s, c);
    }
  }

  lemma RescueCheckInv(s: State, c: Cpu)
    requires Inv(s) && c < |s.cpus| && s.cpus[c].pc.RescueCheck?
    ensures Inv(DoRescueCheck(s, c))
  {
    Runner(s, c);
    LockHeld(s, c);
    if CheckHits(s, s.cpus[c].pc) { CheckHitCore(s, c); CheckHitWaits(s, c); }
    else { RescueMissQuiet(s, c); RescueMissCalm(s, c); QuietInv(s, DoRescueCheck(s, c), c); }
  }

  lemma RescueEndInv(s: State, c: Cpu)
    requires Inv(s) && c < |s.cpus| && PcReady(s, c)
    ensures s.cpus[c].pc.RescuePush? ==> Inv(DoRescuePush(s, c))
    ensures s.cpus[c].pc.RescueUnlock? ==> Inv(Go(SetLock(s, s.cpus[c].pc.b, false), c, Safe))
  {
    Runner(s, c);
    if s.cpus[c].pc.RescuePush? { RescuePushCore(s, c); RescuePushCalm(s, c); CalmInv(s, DoRescuePush(s, c), c); }
    if s.cpus[c].pc.RescueUnlock? {
      var b := s.cpus[c].pc.b;
      RescueUnlockQuiet(s, c, b);
      RescueEndCalm(s, c, b);
      QuietInv(s, Go(SetLock(s, b, false), c, Safe), c);
    }
  }

  lemma SpawnInv(s: State, c: Cpu)
    requires Inv(s) && c < |s.cpus| && PcReady(s, c)
    ensures s.cpus[c].pc.SpawnInstall? ==> Inv(DoInstall(s, c))
    ensures s.cpus[c].pc.SpawnPush? ==> Inv(DoSpawnPush(s, c))
  {
    if s.cpus[c].pc.SpawnInstall? { InstallCore(s, c); InstallWaits(s, c); }
    if s.cpus[c].pc.SpawnPush? { SpawnPushCore(s, c); SpawnPushCalm(s, c); CalmInv(s, DoSpawnPush(s, c), c); }
  }

  lemma SettleInv(s: State, c: Cpu, q: Cpu)
    requires Inv(s) && Enabled(s, c, SpawnOn(q))
    ensures Inv(DoSettle(s, c, q))
  {
    SettleCore(s, c, q);
    SettleWaits(s, c, q);
  }

  lemma ExitMarkInv(s: State, c: Cpu)
    requires Inv(s) && c < |s.cpus| && s.cpus[c].pc.ExitMark? && PcReady(s, c)
    ensures Inv(DoExitMark(s, c))
  {
    Runner(s, c);
    ExitMarkCore(s, c);
    ExitMarkCalm(s, c);
    CalmInv(s, DoExitMark(s, c), c);
  }

  lemma ProceedInv(s: State, c: Cpu)
    requires Inv(s) && Enabled(s, c, Proceed)
    ensures Inv(DoProceed(s, c))
  {
    var pc := s.cpus[c].pc;
    if Waiting(pc) { AcquireInv(s, c); }
    else if pc.WaitCheck? { WaitCheckInv(s, c); }
    else if pc.WaitMark? || pc.WaitFields? || pc.WaitResult? { WaiterInv(s, c); }
    else if pc.WaitPick? || pc.WaitHand? { PickInv(s, c); }
    else if pc.SwitchSave? || pc.SwitchLoad? { SwitchInv(s, c); }
    else if pc.Resuming? || pc.IdleClear? || pc.IdlePopped? { ResumeInv(s, c); }
    else if pc.WakeScan? { ScanInv(s, c); }
    else if pc.WakePush? || pc.WakeUnlock? { WakerInv(s, c); }
    else if pc.RescueCheck? { RescueCheckInv(s, c); }
    else if pc.RescuePush? || pc.RescueUnlock? { RescueEndInv(s, c); }
    else if pc.SpawnInstall? || pc.SpawnPush? { SpawnInv(s, c); }
    else { ExitMarkInv(s, c); }
  }

  lemma StepInv(s: State, c: Cpu, act: Action)
    requires Inv(s) && Enabled(s, c, act)
    ensures Inv(Do(s, c, act))
  {
    hide Inv;
    match act
    case Compute(d) => ComputeInv(s, c, d);
    case Store(a, v) => StoreInv(s, c, a, v);
    case CallWait(_, _, _) => CallInv(s, c, act);
    case CallWake(_, _) => CallInv(s, c, act);
    case CallSpawn => CallInv(s, c, act);
    case CallExit => CallInv(s, c, act);
    case Yield => YieldInv(s, c);
    case Drain(t) => DrainInv(s, c, t);
    case IdlePop => IdlePopInv(s, c);
    case Proceed => ProceedInv(s, c);
    case SpawnOn(q) => SettleInv(s, c, q);
  }

  lemma NextInv(s: State, s': State)
    requires Inv(s) && Next(s, s')
    ensures Inv(s')
  {
    if exists c: Cpu, act: Action :: Enabled(s, c, act) && s' == Do(s, c, act) {
      var c: Cpu, act: Action :| Enabled(s, c, act) && s' == Do(s, c, act);
      StepInv(s, c, act);
    } else {
      var e: Env :| s' == DoEnv(s, e);
      EnvCore(s, e);
      EnvWaits(s, e);
    }
  }

  /** The invariant holds throughout every run, of any length and any interleaving. */
  lemma {:induction false} RunInv(run: seq<State>, i: nat)
    requires Run(run) && Init(run[0]) && i < |run|
    ensures Inv(run[i])
  {
    hide Inv, Init, Next;
    if i == 0 {
      InitInv(run[0]);
    } else {
      RunInv(run, i - 1);
      assert Next(run[i - 1], run[i - 1 + 1]);
      NextInv(run[i - 1], run[i]);
    }
  }

  lemma ReachableInv(s: State)
    requires Reachable(s)
    ensures Inv(s)
  {
    hide Inv, Init, Next;
    var run :| Run(run) && Init(run[0]) && run[|run| - 1] == s;
    RunInv(run, |run| - 1);
  }
}

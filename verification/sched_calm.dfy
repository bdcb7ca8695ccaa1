/** The steps that neither wake, block, store nor report: they keep the waiting invariant. */
module SchedCalm {
  import opened Wrappers
  import opened PendingWakes
  import opened SchedState
  import opened SchedInvariant
  import opened SchedCore
  import opened SchedWaits
  import C = SchedContexts

  predicate SameWaiting(k: CpuState, k': CpuState) {
    || (k'.who == k.who && InsidePc(k'.pc) == InsidePc(k.pc))
    || (!k.who.Thr? && !k'.who.Thr?)
  }

  predicate SameRecords(s: State, s': State) {
    && s'.threads.Keys == s.threads.Keys && s'.mem == s.mem && s'.now == s.now
    && forall t :: t in s.threads ==>
         CalmThread(s.threads[t], s'.threads[t]) && s'.threads[t].ctx.resume == s.threads[t].ctx.resume
  }

  lemma CalmBy(s: State, s': State, c: Cpu)
    requires Acts(s, s', c) && SameRecords(s, s') && SameWaiting(s.cpus[c], s'.cpus[c])
    requires CalmPc(s.cpus[c].pc) && CalmPc(s'.cpus[c].pc)
    ensures Calm(s, s', c)
  {
    forall t | t in s.threads ensures Inside(s', t) == Inside(s, t) {
      assert CalmThread(s.threads[t], s'.threads[t]);
    }
  }

  lemma AcquireBucketCalm(s: State, c: Cpu)
    requires Shaped(s) && c < |s.cpus| && Waiting(s.cpus[c].pc) && LockFree(s, s.cpus[c].pc)
    requires s.cpus[c].pc.WaitLock? || s.cpus[c].pc.WakeLock? || s.cpus[c].pc.RescueLock?
    ensures Calm(s, DoAcquire(s, c), c)
  {
    hide Bucket;
    CalmBy(s, DoAcquire(s, c), c);
  }

  lemma AcquireThreadCalm(s: State, c: Cpu)
    requires Shaped(s) && c < |s.cpus| && Waiting(s.cpus[c].pc) && LockFree(s, s.cpus[c].pc)
    requires s.cpus[c].pc.RescueTLock? || s.cpus[c].pc.SpawnTLock?
    ensures Calm(s, DoAcquire(s, c), c)
  {
    CalmBy(s, DoAcquire(s, c), c);
  }

  lemma AcquireCalm(s: State, c: Cpu)
    requires Shaped(s) && c < |s.cpus| && Waiting(s.cpus[c].pc) && LockFree(s, s.cpus[c].pc) && !s.cpus[c].pc.WakeTLock?
    ensures Calm(s, DoAcquire(s, c), c)
  {
    hide Calm;
    hide DoAcquire;
    if s.cpus[c].pc.RescueTLock? || s.cpus[c].pc.SpawnTLock? { AcquireThreadCalm(s, c); } else { AcquireBucketCalm(s, c); }
  }

  lemma PickCalm(s: State, c: Cpu)
    requires Shaped(s) && c < |s.cpus| && s.cpus[c].pc.WaitPick?
    ensures Calm(s, DoPick(s, c), c)
  {
    CalmBy(s, DoPick(s, c), c);
  }

  lemma HandCalm(s: State, c: Cpu)
    requires Shaped(s) && c < |s.cpus| && s.cpus[c].pc.WaitHand?
    ensures Calm(s, DoHand(s, c), c)
  {
    CalmBy(s, DoHand(s, c), c);
  }

  lemma ReleaseCalm(s: State, c: Cpu)
    requires Shaped(s) && c < |s.cpus| && s.cpus[c].pc.Resuming? && PcReady(s, c)
    ensures Calm(s, DoRelease(s, c), c)
  {
    CalmBy(s, DoRelease(s, c), c);
  }

  lemma IdleCalm(s: State, c: Cpu)
    requires Shaped(s) && c < |s.cpus| && CpuOk(s, c)
    ensures s.cpus[c].pc.IdleClear? ==> Calm(s, DoIdleClear(s, c), c)
    ensures s.cpus[c].pc.IdlePopped? ==> Calm(s, DoIdleSwitch(s, c), c)
  {
    if s.cpus[c].pc.IdleClear? { CalmBy(s, DoIdleClear(s, c), c); }
    if s.cpus[c].pc.IdlePopped? { CalmBy(s, DoIdleSwitch(s, c), c); }
  }

  lemma RescuePushCalm(s: State, c: Cpu)
    requires Shaped(s) && c < |s.cpus| && s.cpus[c].pc.RescuePush? && PcReady(s, c)
    ensures Calm(s, DoRescuePush(s, c), c)
  {
    CalmBy(s, DoRescuePush(s, c), c);
  }

  lemma RescueEndCalm(s: State, c: Cpu, b: nat)
    requires Shaped(s) && c < |s.cpus| && s.cpus[c].pc == RescueUnlock(b) && b < FUTEX_BUCKETS
    ensures Calm(s, Go(SetLock(s, b, false), c, Safe), c)
  {
    CalmBy(s, Go(SetLock(s, b, false), c, Safe), c);
  }

  lemma RescueMissCalm(s: State, c: Cpu)
    requires Shaped(s) && c < |s.cpus| && s.cpus[c].pc.RescueCheck? && !CheckHits(s, s.cpus[c].pc)
    ensures Calm(s, DoRescueCheck(s, c), c)
  {
    CalmBy(s, DoRescueCheck(s, c), c);
  }

  lemma SpawnPushCalm(s: State, c: Cpu)
    requires Shaped(s) && c < |s.cpus| && s.cpus[c].pc.SpawnPush? && s.cpus[c].pc.c < |s.cpus|
    ensures Calm(s, DoSpawnPush(s, c), c)
  {
    CalmBy(s, DoSpawnPush(s, c), c);
  }

  /** A wait that returns changes one record's result, and moves its CPU to a safe point. */
  lemma CalmReturns(s: State, s1: State, c: Cpu, r: int)
    requires Acts(s, s1, c) && s1.cpus == s.cpus && s1.threads == s.threads && s1.mem == s.mem && s1.now == s.now
    ensures var s' := WaitReturns(s1, c, r); Acts(s, s', c) && SameRecords(s, s') && s'.cpus[c] == s.cpus[c].(pc := Safe)
  {
  }

  lemma ReturnCalm(s: State, c: Cpu)
    requires Shaped(s) && c < |s.cpus| && s.cpus[c].pc.WaitCheck? && WaitVerdict(s, s.cpus[c]).Some?
    ensures Calm(s, DoWaitCheck(s, c), c)
  {
    hide Calm;
    hide Inside;
    hide Bucket, Consume, WaitVerdict;
    CalmReturns(s, SetLock(s, Bucket(s.cpus[c].pc.a), false).(pending := DoWaitCheck(s, c).pending), c, WaitVerdict(s, s.cpus[c]).value);
    CalmBy(s, DoWaitCheck(s, c), c);
  }

  lemma CallCalm(s: State, c: Cpu, pc: Pc)
    requires Shaped(s) && c < |s.cpus| && s.cpus[c].pc.Safe? && (pc.WaitLock? || pc.WakeLock?)
    ensures Calm(s, Go(s, c, pc), c)
  {
    CalmBy(s, Go(s, c, pc), c);
  }

  lemma SpawnCalm(s: State, c: Cpu)
    requires Enabled(s, c, CallSpawn)
    ensures Calm(s, DoSpawn(s, c), c)
  {
    CalmBy(s, DoSpawn(s, c), c);
  }

  lemma ExitCalm(s: State, c: Cpu)
    requires Enabled(s, c, CallExit)
    ensures Calm(s, DoExit(s, c), c)
  {
    CalmBy(s, DoExit(s, c), c);
  }

  lemma DrainCalm(s: State, c: Cpu, t: Tid)
    requires Enabled(s, c, Drain(t))
    ensures Calm(s, DoDrain(s, c, t), c)
  {
    hide Calm;
    hide Inside;
    hide Bucket;
    CalmBy(s, DoDrain(s, c, t), c);
  }

  lemma YieldBootCalm(s: State, c: Cpu)
    requires Enabled(s, c, Yield) && CpuOk(s, c) && (s.queues[c] == [] || s.cpus[c].current == None)
    ensures Calm(s, DoYield(s, c), c)
  {
    CalmBy(s, DoYield(s, c), c);
  }

  lemma YieldThreadCalm(s: State, c: Cpu)
    requires Enabled(s, c, Yield) && CpuOk(s, c) && s.queues[c] != [] && s.cpus[c].current.Some?
    ensures Calm(s, DoYield(s, c), c)
  {
    CalmBy(s, DoYield(s, c), c);
  }

  lemma YieldCalm(s: State, c: Cpu)
    requires Enabled(s, c, Yield) && CpuOk(s, c)
    ensures Calm(s, DoYield(s, c), c)
  {
    hide Calm;
    hide DoYield;
    if s.queues[c] == [] || s.cpus[c].current == None { YieldBootCalm(s, c); } else { YieldThreadCalm(s, c); }
  }

  lemma IdlePopCalm(s: State, c: Cpu)
    requires Enabled(s, c, IdlePop)
    ensures Calm(s, DoIdlePop(s, c), c)
  {
    CalmBy(s, DoIdlePop(s, c), c);
  }

  lemma ComputeCalm(s: State, c: Cpu, x: nat)
    requires Enabled(s, c, Compute(x))
    ensures Calm(s, DoCompute(s, c, x), c)
  {
    CalmBy(s, DoCompute(s, c, x), c);
  }

  lemma ExitMarkCalm(s: State, c: Cpu)
    requires Shaped(s) && c < |s.cpus| && CpuOk(s, c) && s.cpus[c].pc.ExitMark? && PcReady(s, c)
    requires s.threads[Victim(s.cpus[c].pc.cur)].st != Blocked
    ensures Calm(s, DoExitMark(s, c), c)
  {
    hide Calm;
    hide Inside;
    hide Bucket;
    CalmBy(s, DoExitMark(s, c), c);
  }

  lemma SaveCalm(s: State, c: Cpu)
    requires Shaped(s) && c < |s.cpus| && CpuOk(s, c) && s.cpus[c].pc.SwitchSave? && PcReady(s, c)
    requires s.cpus[c].who.Thr? ==> s.threads[s.cpus[c].who.tid].home == c
    ensures Calm(s, DoSave(s, c), c)
  {
    var s' := DoSave(s, c);
    forall t | t in s.threads ensures Inside(s', t) == Inside(s, t) && CalmThread(s.threads[t], s'.threads[t]) {}
  }

  lemma LoadCalm(s: State, c: Cpu)
    requires Shaped(s) && c < |s.cpus| && CpuOk(s, c) && s.cpus[c].pc.SwitchLoad? && PcReady(s, c)
    ensures Calm(s, DoLoad(s, c), c)
  {
    var s' := DoLoad(s, c);
    forall t | t in s.threads ensures Inside(s', t) == Inside(s, t) && CalmThread(s.threads[t], s'.threads[t]) {}
  }
}

/** What futex calls give back, over whole runs: a wait blocks on what it was asked to wait for, a
    timed wait whose deadline has passed reports it, and a wake wakes as many as it says. */
module SchedOutcomes {
  import opened Wrappers
  import opened PendingWakes
  import opened SchedState
  import opened SchedInvariant
  import opened SchedCore
  import opened SchedWaits
  import opened SchedWaking
  import opened SchedPreserve
  import opened SchedTheorems
  import opened SchedPromises
  import C = SchedContexts
  import L = SchedLocks

  // ---- a wait that goes on ----

  /** Wait number x.waitNo of thread t is over, or goes on as it was in record x; if it had ended in x,
      its rescue stands. */
  predicate Continues(s: State, t: Tid, x: Thread) {
    && t in s.threads && s.threads[t].waitNo >= x.waitNo
    && (s.threads[t].waitNo == x.waitNo ==> Unmarked(s, t) && Advances(x, s.threads[t]))
  }

  lemma AdvancesOn(x: Thread, y: Thread, z: Thread)
    requires Advances(x, y) && Advances(y, z)
    ensures Advances(x, z)
  {
  }

  lemma StepContinues(s: State, c: Cpu, act: Action, s': State, t: Tid, x: Thread)
    requires Core(s) && Enabled(s, c, act) && s' == Do(s, c, act) && Continues(s, t, x)
    ensures Continues(s', t, x)
  {
    assert CpuOk(s, c);
    if s.threads[t].waitNo == x.waitNo {
      StepAdvances(s, c, act, t);
      AdvancesOn(x, s.threads[t], s'.threads[t]);
      if s'.threads[t].waitNo == x.waitNo { StepUnmarked(s, c, act, s', t); }
    } else if s.cpus[c].pc.WaitFields? && s.cpus[c].pc.me == t {
      assert s' == DoFields(s, c);
    } else {
      StepAdvances(s, c, act, t);
    }
  }

  lemma NextContinues(s: State, s': State, t: Tid, x: Thread)
    requires Core(s) && Next(s, s') && Continues(s, t, x)
    ensures Continues(s', t, x)
  {
    if exists c: Cpu, act: Action :: Enabled(s, c, act) && s' == Do(s, c, act) {
      var c: Cpu, act: Action :| Enabled(s, c, act) && s' == Do(s, c, act);
      StepContinues(s, c, act, s', t, x);
    } else {
      var e: Env :| s' == DoEnv(s, e);
      assert s'.threads == s.threads && s'.cpus == s.cpus;
    }
  }

  lemma {:induction false} RunContinues(run: seq<State>, i: nat, j: nat, t: Tid, x: Thread)
    requires Run(run) && Init(run[0]) && i <= j < |run| && Continues(run[i], t, x)
    ensures Continues(run[j], t, x)
    decreases j - i
  {
    hide Next, Init, Continues, Core;
    if i < j {
      RunCore(run, i);
      assert Next(run[i], run[i + 1]);
      NextContinues(run[i], run[i + 1], t, x);
      RunContinues(run, i + 1, j, t, x);
    }
  }

  lemma RunCore(run: seq<State>, i: nat)
    requires Run(run) && Init(run[0]) && i < |run|
    ensures Core(run[i]) && Inv(run[i]) && Shaped(run[i])
  {
    hide Next, Init;
    RunInv(run, i);
  }

  // ---- deadlines ----

  lemma RescueFacts(s: State, c: Cpu, t: Tid)
    requires Core(s) && Asleep(s, t) && c < |s.cpus| && s.cpus[c].pc.RescueCheck? && s.cpus[c].pc.t == t
    requires s.threads[t].waitDeadline != 0 && s.now >= s.threads[t].waitDeadline
    ensures var s' := DoRescueCheck(s, c);
      && t in s'.threads && s'.threads[t].waitNo == s.threads[t].waitNo && s'.threads[t].st == Ready
      && Expired(s'.threads[t]) && Unmarked(s', t)
  {
    AsleepUnmarked(s, t);
  }

  lemma ResultIs(s: State, d: Cpu, t: Tid)
    requires Inv(s) && d < |s.cpus| && s.cpus[d].pc == WaitResult(t) && t in s.threads && Expired(s.threads[t])
    ensures DoResult(s, d).threads[t].ret == ETIMEDOUT
  {
    ResultFacts(s, d);
  }

  /** A timed wait that is still asleep at its deadline and is then rescued reports the timeout, at
      whatever later moment and on whichever CPU it returns. */
  lemma DeadlineIsReported(run: seq<State>, i: nat, c: Cpu, j: nat, d: Cpu, t: Tid)
    requires Run(run) && Init(run[0]) && i < j < |run|
    requires Asleep(run[i], t) && run[i].threads[t].waitDeadline != 0 && run[i].now >= run[i].threads[t].waitDeadline
    requires Shaped(run[i]) && c < |run[i].cpus| && run[i].cpus[c].pc.RescueCheck? && run[i].cpus[c].pc.t == t
    requires run[i + 1] == DoRescueCheck(run[i], c)
    requires d < |run[j].cpus| && run[j].cpus[d].pc == WaitResult(t)
    requires t in run[j].threads && run[j].threads[t].waitNo == run[i].threads[t].waitNo
    ensures Shaped(run[j]) && DoResult(run[j], d).threads[t].ret == ETIMEDOUT
  {
    hide Init, Next, DoRescueCheck, DoResult, Core, Unmarked;
    RunCore(run, i);
    RescueFacts(run[i], c, t);
    RunContinues(run, i + 1, j, t, run[i + 1].threads[t]);
    RunCore(run, j);
    ResultIs(run[j], d, t);
  }

  // ---- what a wait waits for ----

  /** On its way from the call to being asleep. */
  predicate Entering(pc: Pc) {
    pc.WaitLock? || pc.WaitCheck? || pc.WaitMark? || pc.WaitFields?
  }

  predicate AsAsked(k: CpuState, w: Who, a: Addr, v: nat, dl: nat) {
    k.who == w && Entering(k.pc) && k.pc.a == a && k.pc.v == v && k.pc.dl == dl
  }

  lemma EnteringStep(s: State, c: Cpu, w: Who, a: Addr, v: nat, dl: nat)
    requires Enabled(s, c, Proceed) && AsAsked(s.cpus[c], w, a, v, dl)
    ensures var k := DoProceed(s, c).cpus[c]; Entering(k.pc) ==> AsAsked(k, w, a, v, dl)
  {
    EnteringParts(s, c, w, a, v, dl);
    hide DoAcquire, DoWaitCheck, DoMark, DoFields;
  }

  lemma EnteringParts(s: State, c: Cpu, w: Who, a: Addr, v: nat, dl: nat)
    requires Enabled(s, c, Proceed) && AsAsked(s.cpus[c], w, a, v, dl)
    ensures s.cpus[c].pc.WaitLock? ==> var k := DoAcquire(s, c).cpus[c]; Entering(k.pc) ==> AsAsked(k, w, a, v, dl)
    ensures s.cpus[c].pc.WaitCheck? ==> var k := DoWaitCheck(s, c).cpus[c]; Entering(k.pc) ==> AsAsked(k, w, a, v, dl)
    ensures s.cpus[c].pc.WaitMark? ==> var k := DoMark(s, c).cpus[c]; Entering(k.pc) ==> AsAsked(k, w, a, v, dl)
    ensures s.cpus[c].pc.WaitFields? ==> var k := DoFields(s, c).cpus[c]; Entering(k.pc) ==> AsAsked(k, w, a, v, dl)
  {
    hide Bucket, Consume, WaitVerdict;
  }

  lemma OthersKeep(s: State, e: Cpu, act: Action, c: Cpu)
    requires Enabled(s, e, act) && c < |s.cpus| && c != e
    ensures c < |Do(s, e, act).cpus| && Do(s, e, act).cpus[c] == s.cpus[c]
  {
    if !act.Drain? { StepLocal(s, e, act); }
  }

  lemma NextAsAsked(s: State, s': State, c: Cpu, w: Who, a: Addr, v: nat, dl: nat)
    requires Next(s, s') && c < |s.cpus| == |s'.cpus| && AsAsked(s.cpus[c], w, a, v, dl) && Entering(s'.cpus[c].pc)
    ensures AsAsked(s'.cpus[c], w, a, v, dl)
  {
    hide AsAsked;
    if exists e: Cpu, act: Action :: Enabled(s, e, act) && s' == Do(s, e, act) {
      var e: Cpu, act: Action :| Enabled(s, e, act) && s' == Do(s, e, act);
      if e != c {
        OthersKeep(s, e, act, c);
      } else {
        assert act.Proceed? by { assert AsAsked(s.cpus[c], w, a, v, dl); Inside4(s.cpus[c], w, a, v, dl); }
        EnteringStep(s, c, w, a, v, dl);
      }
    } else {
      var e: Env :| s' == DoEnv(s, e);
      assert s'.cpus == s.cpus;
    }
  }

  lemma Inside4(k: CpuState, w: Who, a: Addr, v: nat, dl: nat)
    requires AsAsked(k, w, a, v, dl)
    ensures !k.pc.Safe? && !k.pc.SpawnPick?
  {
  }

  lemma {:induction false} RunAsAsked(run: seq<State>, i: nat, j: nat, c: Cpu, w: Who, a: Addr, v: nat, dl: nat)
    requires Run(run) && i <= j < |run| && c < |run[i].cpus| && AsAsked(run[i].cpus[c], w, a, v, dl)
    requires forall m :: i <= m <= j ==> |run[m].cpus| == |run[i].cpus| && Entering(run[m].cpus[c].pc)
    ensures AsAsked(run[j].cpus[c], w, a, v, dl)
    decreases j - i
  {
    hide Next, AsAsked, Entering;
    if i < j {
      assert Next(run[i], run[i + 1]);
      NextAsAsked(run[i], run[i + 1], c, w, a, v, dl);
      RunAsAsked(run, i + 1, j, c, w, a, v, dl);
    }
  }

  lemma FieldsFacts(s: State, c: Cpu, t: Tid, a: Addr, v: nat, dl: nat)
    requires Inv(s) && c < |s.cpus| && s.cpus[c].pc.WaitFields? && AsAsked(s.cpus[c], Thr(t), a, v, dl)
    ensures s.cpus[c].pc.me == t && t in s.threads && t in DoFields(s, c).threads
    ensures var y := DoFields(s, c).threads[t];
      && y.addr == a && y.val == v && y.waitDeadline == dl && y.since == s.now && y.waitNo == s.threads[t].waitNo
      && Unmarked(DoFields(s, c), t)
  {
    Runner(s, c);
    assert TimerOk(s, t);
    forall e: Cpu | e < |s.cpus| && e != c && s.cpus[e].pc.WaitFields? ensures s.cpus[e].pc.me != t { Runner(s, e); }
  }

  lemma CallAsks(s: State, c: Cpu, a: Addr, v: nat, dl: nat)
    requires Enabled(s, c, CallWait(a, v, dl))
    ensures var s' := Do(s, c, CallWait(a, v, dl)); c < |s'.cpus| && AsAsked(s'.cpus[c], s.cpus[c].who, a, v, dl)
  {
  }

  /** A wait that blocks sleeps on the word, for the value and until the deadline its caller gave, from
      the moment it went to sleep, for as long as it sleeps. */
  lemma SleepsAsAsked(run: seq<State>, i: nat, j: nat, k: nat, c: Cpu, t: Tid, a: Addr, v: nat, dl: nat)
    requires Run(run) && Init(run[0]) && i < j < k < |run|
    requires Enabled(run[i], c, CallWait(a, v, dl)) && run[i + 1] == Do(run[i], c, CallWait(a, v, dl)) && run[i].cpus[c].who == Thr(t)
    requires forall m :: i < m <= j ==> |run[m].cpus| == |run[i].cpus| && Entering(run[m].cpus[c].pc)
    requires Shaped(run[j]) && run[j].cpus[c].pc.WaitFields? && run[j].cpus[c].pc.me in run[j].threads && run[j + 1] == DoFields(run[j], c)
    requires Asleep(run[k], t) && t in run[j].threads && run[k].threads[t].waitNo == run[j].threads[t].waitNo
    ensures var y := run[k].threads[t];
      y.addr == a && y.val == v && y.waitDeadline == dl && y.since == run[j].now
  {
    hide Init, Next, AsAsked, Entering, Unmarked, DoFields, Do, Core;
    CallAsks(run[i], c, a, v, dl);
    RunAsAsked(run, i + 1, j, c, Thr(t), a, v, dl);
    RunCore(run, j);
    FieldsFacts(run[j], c, t, a, v, dl);
    RunContinues(run, j + 1, k, t, run[j + 1].threads[t]);
  }

  lemma VerdictFacts(s: State, c: Cpu)
    requires Core(s) && c < |s.cpus| && s.cpus[c].pc.WaitCheck?
    ensures s.cpus[c].who.Thr? && s.cpus[c].who.tid in s.threads && s.cpus[c].current == Some(s.cpus[c].who.tid)
  {
    Runner(s, c);
  }

  // ---- spawn ----

  /** A spawn takes the next thread number, and goes on exactly if it is below 32. */
  lemma SpawnNumbers(s: State, c: Cpu)
    requires Enabled(s, c, CallSpawn)
    ensures var s' := Do(s, c, CallSpawn);
      && s'.nextTid == s.nextTid + 1 && s'.threads == s.threads
      && s'.cpus == if s.nextTid < 32 then s.cpus[c := s.cpus[c].(pc := SpawnTLock(s.nextTid))] else s.cpus
  {
  }

  /** The child is ready to continue where its parent called, with its parent's registers, and has
      neither waits nor debts. */
  lemma ChildCopiesParent(s: State, c: Cpu)
    requires Reachable(s) && c < |s.cpus| && s.cpus[c].pc.SpawnInstall?
    ensures Shaped(s) && RunsThread(s, c) && s.cpus[c].pc.t !in s.threads
    ensures var y := DoInstall(s, c).threads[s.cpus[c].pc.t];
      && y.st == Ready && y.ctx == Ctx(ResumeChild, s.threads[s.cpus[c].who.tid].live) && y.live == y.ctx.data
      && y.waitNo == 0 && y.owes == {}
  {
    hide Core, Reachable;
    ReachableCore(s);
    SpawnerFacts(s, c);
  }

  lemma SpawnerFacts(s: State, c: Cpu)
    requires Core(s) && c < |s.cpus| && s.cpus[c].pc.SpawnInstall?
    ensures Shaped(s) && RunsThread(s, c) && s.cpus[c].pc.t !in s.threads && s.cpus[c].data == s.threads[s.cpus[c].who.tid].live
  {
    Runner(s, c);
    assert C.RunsHome(OfficeOf(s), c) && OfficeOf(s).desks[c].who == s.cpus[c].who;
  }

  // ---- what a wake wakes ----

  predicate Waking(pc: Pc) {
    pc.WakeLock? || pc.WakeTLock? || pc.WakeScan? || pc.WakePush? || pc.WakeUnlock?
  }

  predicate WakeAsked(k: CpuState, w: Who, a: Addr, count: nat) {
    k.who == w && Waking(k.pc) && k.pc.a == a && k.pc.count == count
  }

  lemma WakingParts(s: State, c: Cpu, w: Who, a: Addr, count: nat)
    requires Enabled(s, c, Proceed) && WakeAsked(s.cpus[c], w, a, count)
    ensures Waiting(s.cpus[c].pc) ==> var k := DoAcquire(s, c).cpus[c]; WakeAsked(k, w, a, count)
    ensures s.cpus[c].pc.WakeScan? ==> var k := DoScan(s, c).cpus[c]; WakeAsked(k, w, a, count)
    ensures s.cpus[c].pc.WakePush? ==> var k := DoWakePush(s, c).cpus[c]; WakeAsked(k, w, a, count)
    ensures s.cpus[c].pc.WakeUnlock? ==> DoWakeUnlock(s, c).cpus[c].pc == Safe
  {
    hide Bucket, Insert, ScanHits;
  }

  lemma WakingStep(s: State, c: Cpu, act: Action, w: Who, a: Addr, count: nat)
    requires Enabled(s, c, act) && WakeAsked(s.cpus[c], w, a, count)
    ensures c < |Do(s, c, act).cpus|
    ensures var k := Do(s, c, act).cpus[c]; Waking(k.pc) ==> WakeAsked(k, w, a, count)
  {
    assert act.Proceed?;
    WakingParts(s, c, w, a, count);
    hide DoAcquire, DoScan, DoWakePush, DoWakeUnlock;
  }

  lemma NextWaking(s: State, s': State, c: Cpu, w: Who, a: Addr, count: nat)
    requires Next(s, s') && c < |s.cpus| && c < |s'.cpus| && WakeAsked(s.cpus[c], w, a, count) && Waking(s'.cpus[c].pc)
    ensures WakeAsked(s'.cpus[c], w, a, count)
  {
    hide WakeAsked, Waking, Do;
    if exists e: Cpu, act: Action :: Enabled(s, e, act) && s' == Do(s, e, act) {
      var e: Cpu, act: Action :| Enabled(s, e, act) && s' == Do(s, e, act);
      if e != c { OthersKeep(s, e, act, c); } else { WakingStep(s, c, act, w, a, count); }
    } else {
      var e: Env :| s' == DoEnv(s, e);
      assert s'.cpus == s.cpus;
    }
  }

  lemma CallWakes(s: State, c: Cpu, a: Addr, count: nat)
    requires Enabled(s, c, CallWake(a, count))
    ensures var s' := Do(s, c, CallWake(a, count)); c < |s'.cpus| && WakeAsked(s'.cpus[c], s.cpus[c].who, a, count)
  {
  }

  lemma {:induction false} RunWaking(run: seq<State>, i: nat, j: nat, c: Cpu, w: Who, a: Addr, count: nat)
    requires Run(run) && i <= j < |run| && c < |run[i].cpus| && WakeAsked(run[i].cpus[c], w, a, count)
    requires forall m :: i <= m <= j ==> c < |run[m].cpus| && Waking(run[m].cpus[c].pc)
    ensures WakeAsked(run[j].cpus[c], w, a, count)
    decreases j - i
  {
    hide Next, WakeAsked, Waking;
    if i < j {
      assert Next(run[i], run[i + 1]);
      NextWaking(run[i], run[i + 1], c, w, a, count);
      RunWaking(run, i + 1, j, c, w, a, count);
    }
  }

  /** A wake works on the word and with the count its caller gave, on behalf of its caller, to its end. */
  lemma WakesAsAsked(run: seq<State>, i: nat, j: nat, c: Cpu, a: Addr, count: nat)
    requires Run(run) && i < j < |run| && Enabled(run[i], c, CallWake(a, count)) && run[i + 1] == Do(run[i], c, CallWake(a, count))
    requires forall m :: i < m <= j ==> c < |run[m].cpus| && Waking(run[m].cpus[c].pc)
    ensures WakeAsked(run[j].cpus[c], run[i].cpus[c].who, a, count)
  {
    hide Next, Do;
    CallWakes(run[i], c, a, count);
    RunWaking(run, i + 1, j, c, run[i].cpus[c].who, a, count);
  }

  /** The wait on CPU c is over with result r, and its bucket lock is free. */
  predicate Answers(s: State, s': State, c: Cpu, r: int) {
    && Shaped(s) && c < |s.cpus| && s.cpus[c].pc.WaitCheck? && RunsThread(s, c) && Shaped(s')
    && s'.cpus == s.cpus[c := s.cpus[c].(pc := Safe)] && !s'.locks[Bucket(s.cpus[c].pc.a)]
    && var t := s.cpus[c].who.tid; s'.threads == s.threads[t := s.threads[t].(ret := r)]
  }

  /** What a wait answers under the bucket lock: 0 for a recorded wake, EFAULT for an unreadable word,
      EAGAIN for a changed one, 0 while blocking is not armed; otherwise it goes on to block, with
      the lock still held. */
  lemma WaitAnswers(s: State, c: Cpu)
    requires Reachable(s) && c < |s.cpus| && s.cpus[c].pc.WaitCheck?
    ensures Shaped(s) && s.cpus[c].who.Thr? && s.cpus[c].who.tid in s.threads
    ensures var s', k, t := DoWaitCheck(s, c), s.cpus[c], s.cpus[c].who.tid;
      var a := k.pc.a;
      if Has(s.pending[Bucket(a)], a) then Answers(s, s', c, 0)
      else if a !in s.mem then Answers(s, s', c, -14)
      else if s.mem[a] != k.pc.v then Answers(s, s', c, -11)
      else if !s.blocking then Answers(s, s', c, 0)
      else s'.cpus[c] == k.(pc := WaitMark(t, a, k.pc.v, k.pc.dl)) && s'.threads == s.threads && s'.locks == s.locks && s'.pending == s.pending
  {
    hide Inv, Core, DoWaitCheck, Bucket, Has;
    ReachableCore(s);
    VerdictFacts(s, c);
    WaitReturnsAt(s, c);
    WaitBlocksAt(s, c);
  }

  lemma WaitReturnsAt(s: State, c: Cpu)
    requires Shaped(s) && c < |s.cpus| && s.cpus[c].pc.WaitCheck? && RunsThread(s, c)
    ensures WaitVerdict(s, s.cpus[c]).Some? ==> Answers(s, DoWaitCheck(s, c), c, WaitVerdict(s, s.cpus[c]).value)
  {
    hide WaitVerdict, Consume, Bucket;
  }

  lemma WaitBlocksAt(s: State, c: Cpu)
    requires Shaped(s) && c < |s.cpus| && s.cpus[c].pc.WaitCheck? && RunsThread(s, c) && s.cpus[c].current == Some(s.cpus[c].who.tid)
    ensures var s', k, t := DoWaitCheck(s, c), s.cpus[c], s.cpus[c].who.tid;
      WaitVerdict(s, k) == None ==> s'.cpus[c] == k.(pc := WaitMark(t, k.pc.a, k.pc.v, k.pc.dl)) && s'.threads == s.threads && s'.locks == s.locks && s'.pending == s.pending
  {
    hide Consume, Bucket, Has;
  }
}

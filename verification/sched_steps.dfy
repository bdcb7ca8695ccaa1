/** Every step of every CPU keeps the core invariant. */
module SchedSteps {
  import opened Wrappers
  import opened PendingWakes
  import opened SchedState
  import opened SchedInvariant
  import opened SchedTokens
  import opened SchedCore
  import C = SchedContexts
  import L = SchedLocks

  // ---- steps that move no token ----

  lemma StoreQuiet(s: State, c: Cpu, a: Addr, v: nat)
    requires Enabled(s, c, Store(a, v)) && CpuOk(s, c)
    ensures Quiet(s, DoStore(s, c, a, v), c)
  {
  }

  lemma CallQuiet(s: State, c: Cpu, pc: Pc)
    requires Shaped(s) && c < |s.cpus| && CpuOk(s, c) && s.cpus[c].pc.Safe? && s.cpus[c].who.Thr?
    requires pc.WaitLock? || pc.WakeLock?
    ensures Quiet(s, Go(s, c, pc), c)
  {
  }

  lemma SpawnQuietFull(s: State, c: Cpu)
    requires Enabled(s, c, CallSpawn) && CpuOk(s, c) && s.nextTid !in s.threads
    requires s.nextTid >= MAX_THREADS
    ensures Quiet(s, DoSpawn(s, c), c)
  {
  }

  lemma SpawnQuietOk(s: State, c: Cpu)
    requires Enabled(s, c, CallSpawn) && CpuOk(s, c) && s.nextTid !in s.threads
    requires s.nextTid < MAX_THREADS
    ensures Quiet(s, DoSpawn(s, c), c)
  {
  }

  lemma ExitQuiet(s: State, c: Cpu)
    requires Enabled(s, c, CallExit) && CpuOk(s, c)
    ensures Quiet(s, DoExit(s, c), c)
  {
  }

  lemma DrainQuietHit(s: State, c: Cpu, t: Tid)
    requires Enabled(s, c, Drain(t)) && CpuOk(s, c)
    requires t in s.threads && s.threads[t].st == Blocked && s.threads[t].addr != 0
    ensures Quiet(s, DoDrain(s, c, t), c)
  {
  }

  lemma DrainQuietMiss(s: State, c: Cpu, t: Tid)
    requires Enabled(s, c, Drain(t)) && CpuOk(s, c)
    requires !(t in s.threads && s.threads[t].st == Blocked && s.threads[t].addr != 0)
    ensures Quiet(s, DoDrain(s, c, t), c)
  {
  }

  lemma AcquireBucketQuiet(s: State, c: Cpu)
    requires Shaped(s) && c < |s.cpus| && CpuOk(s, c) && Waiting(s.cpus[c].pc) && LockFree(s, s.cpus[c].pc)
    requires s.cpus[c].pc.WaitLock? || s.cpus[c].pc.WakeLock?
    ensures Quiet(s, DoAcquire(s, c), c)
  {
    hide Bucket;
  }

  lemma AcquireRescueQuiet(s: State, c: Cpu)
    requires Shaped(s) && c < |s.cpus| && CpuOk(s, c) && Waiting(s.cpus[c].pc) && LockFree(s, s.cpus[c].pc)
    requires s.cpus[c].pc.RescueLock? || s.cpus[c].pc.RescueTLock?
    ensures Quiet(s, DoAcquire(s, c), c)
  {
    hide Bucket;
  }

  lemma AcquireThreadQuiet(s: State, c: Cpu)
    requires Shaped(s) && c < |s.cpus| && CpuOk(s, c)
    requires Waiting(s.cpus[c].pc) && LockFree(s, s.cpus[c].pc)
    requires s.cpus[c].pc.WakeTLock? || s.cpus[c].pc.SpawnTLock?
    ensures Quiet(s, DoAcquire(s, c), c)
  {
    hide Bucket;
  }

  lemma WaitCheckQuietReturn(s: State, c: Cpu)
    requires Shaped(s) && c < |s.cpus| && CpuOk(s, c) && s.cpus[c].pc.WaitCheck?
    requires WaitVerdict(s, s.cpus[c]).Some? && RunsThread(s, c)
    ensures Quiet(s, DoWaitCheck(s, c), c)
  {
    hide Bucket;
  }

  lemma WaitCheckQuietBlock(s: State, c: Cpu)
    requires Shaped(s) && c < |s.cpus| && CpuOk(s, c) && s.cpus[c].pc.WaitCheck?
    requires WaitVerdict(s, s.cpus[c]) == None
    ensures Quiet(s, DoWaitCheck(s, c), c)
  {
    hide Bucket;
  }

  lemma ReleaseQuiet(s: State, c: Cpu)
    requires Shaped(s) && c < |s.cpus| && CpuOk(s, c) && s.cpus[c].pc.Resuming? && PcReady(s, c)
    ensures Quiet(s, DoRelease(s, c), c)
  {
  }

  lemma ScanQuietEnd(s: State, c: Cpu)
    requires Shaped(s) && c < |s.cpus| && CpuOk(s, c) && s.cpus[c].pc.WakeScan? && s.tlock
    requires !ScanHits(s, s.cpus[c].pc)
    requires s.cpus[c].pc.i >= MAX_THREADS || s.cpus[c].pc.woken >= s.cpus[c].pc.count
    ensures Quiet(s, DoScan(s, c), c)
  {
    hide Bucket;
  }

  lemma ScanQuietSkip(s: State, c: Cpu)
    requires Shaped(s) && c < |s.cpus| && CpuOk(s, c) && s.cpus[c].pc.WakeScan? && s.tlock
    requires !ScanHits(s, s.cpus[c].pc)
    requires s.cpus[c].pc.i < MAX_THREADS && s.cpus[c].pc.woken < s.cpus[c].pc.count
    ensures Quiet(s, DoScan(s, c), c)
  {
    hide Bucket;
  }

  lemma WakeUnlockQuietAll(s: State, c: Cpu)
    requires Shaped(s) && c < |s.cpus| && CpuOk(s, c) && s.cpus[c].pc.WakeUnlock? && RunsThread(s, c)
    requires s.cpus[c].pc.count >= MAX_THREADS
    ensures Quiet(s, DoWakeUnlock(s, c), c)
  {
    hide Bucket;
  }

  lemma WakeUnlockQuietSome(s: State, c: Cpu)
    requires Shaped(s) && c < |s.cpus| && CpuOk(s, c) && s.cpus[c].pc.WakeUnlock? && RunsThread(s, c)
    requires s.cpus[c].pc.count < MAX_THREADS
    ensures Quiet(s, DoWakeUnlock(s, c), c)
  {
    hide Bucket;
  }

  lemma FieldsQuiet(s: State, c: Cpu)
    requires Shaped(s) && c < |s.cpus| && CpuOk(s, c) && s.cpus[c].pc.WaitFields? && s.cpus[c].pc.me in s.threads
    ensures Quiet(s, DoFields(s, c), c)
  {
    hide Bucket;
  }

  lemma ResultQuiet(s: State, c: Cpu)
    requires Shaped(s) && c < |s.cpus| && CpuOk(s, c) && s.cpus[c].pc.WaitResult? && s.cpus[c].pc.me in s.threads
    ensures Quiet(s, DoResult(s, c), c)
  {
    hide Bucket;
  }

  lemma IdleClearQuiet(s: State, c: Cpu)
    requires Shaped(s) && c < |s.cpus| && CpuOk(s, c) && s.cpus[c].pc.IdleClear?
    ensures Quiet(s, DoIdleClear(s, c), c)
  {
  }

  lemma RescueMissQuiet(s: State, c: Cpu)
    requires Shaped(s) && c < |s.cpus| && CpuOk(s, c) && s.cpus[c].pc.RescueCheck? && !CheckHits(s, s.cpus[c].pc) && s.tlock
    ensures Quiet(s, DoRescueCheck(s, c), c)
  {
  }

  lemma RescueUnlockQuiet(s: State, c: Cpu, b: nat)
    requires Shaped(s) && c < |s.cpus| && CpuOk(s, c) && s.cpus[c].pc == RescueUnlock(b) && b < FUTEX_BUCKETS
    ensures Quiet(s, Go(SetLock(s, b, false), c, Safe), c)
  {
  }

  // ---- steps that move a token or a context ----

  /** The part of a step that is not about tokens and contexts. */
  predicate Sound(s: State, s': State, c: Cpu) {
    && Acts(s, s', c) && Locking(s, s', c) && CpuOk(s', c)
    && (forall d :: 0 <= d < |s.cpus| && d != c ==> SpawnPending(s', s.cpus[d].pc))
    && (forall t :: t in s'.threads ==> t < s'.nextTid)
  }

  lemma Assemble(s: State, s': State, c: Cpu)
    requires Core(s) && Sound(s, s', c) && Tokens(BoardOf(s')) && C.Contexts(OfficeOf(s'))
    ensures Core(s')
  {
    LockingKeeps(s, s', c);
    OthersOk(s, s', c);
  }

  lemma BoardSame(s: State, s': State, c: Cpu)
    requires Acts(s, s', c) && s'.queues == s.queues && SeatOf(s'.cpus[c]) == SeatOf(s.cpus[c])
    requires BoardOf(s').tokens == BoardOf(s).tokens
    ensures BoardOf(s') == BoardOf(s)
  {
    Views(s, s', c);
  }

  lemma OfficeSame(s: State, s': State, c: Cpu)
    requires Acts(s, s', c) && DeskOf(s'.cpus[c]) == DeskOf(s.cpus[c])
    requires OfficeOf(s').files == OfficeOf(s).files
    ensures OfficeOf(s') == OfficeOf(s)
  {
    Views(s, s', c);
  }

  /** No stale resume: the context about to be loaded was saved by its thread's last execution,
      on this same CPU, and continues inside a wait, a yield or a fresh clone. */
  lemma LoadedIsSaved(s: State, c: Cpu)
    requires Shaped(s) && c < |s.cpus| && CpuOk(s, c) && Tokens(BoardOf(s)) && C.Contexts(OfficeOf(s))
    requires s.cpus[c].pc.SwitchLoad? && s.cpus[c].pc.to.Thr?
    ensures var t := s.cpus[c].pc.to.tid;
      && t in s.threads && s.threads[t].home == c && Runnable(s.threads[t].st)
      && s.threads[t].ctx.data == s.threads[t].live && C.ThreadResume(s.threads[t].ctx.resume, t)
  {
    var t := s.cpus[c].pc.to.tid;
    assert DueHome(BoardOf(s), c) && BoardOf(s).seats[c].due == Some(t);
    assert C.Saved(OfficeOf(s), t);
    assert OfficeOf(s).desks[c].who == Nobody;
  }

  /** While a CPU holds THREAD_LOCK and has grabbed nothing, no CPU holds a token. */
  lemma HoldingT(s: State, c: Cpu)
    requires Shaped(s) && c < |s.cpus| && L.Exact(ThreadLock(s)) && HoldsT(s.cpus[c].pc).Some? && Hand(s.cpus[c].pc) == None
    ensures HandsEmpty(BoardOf(s))
  {
    var o := ThreadLock(s).owned;
    forall d | 0 <= d < |s.cpus| && d != c ensures Hand(s.cpus[d].pc) == None {
      assert o[c] == Some(0);
      assert o[d] != Some(0);
    }
  }

  lemma MarkSound(s: State, c: Cpu)
    requires Shaped(s) && CpusOk(s) && c < |s.cpus| && s.cpus[c].pc.WaitMark? && s.cpus[c].pc.me in s.threads
    requires forall t :: t in s.threads ==> t < s.nextTid
    ensures Sound(s, DoMark(s, c), c)
  {
    var s' := DoMark(s, c);
    assert CpuOk(s, c);
    forall d | 0 <= d < |s.cpus| && d != c ensures SpawnPending(s', s.cpus[d].pc) { assert CpuOk(s, d); }
  }

  lemma MarkTokens(s: State, c: Cpu)
    requires Shaped(s) && c < |s.cpus| && CpuOk(s, c) && s.cpus[c].pc.WaitMark? && s.cpus[c].pc.me in s.threads
    requires Tokens(BoardOf(s))
    ensures Tokens(BoardOf(DoMark(s, c)))
  {
    hide Tokens;
    var s' := DoMark(s, c);
    var me := s.cpus[c].pc.me;
    Views(s, s', c);
    ViewThread(s, s', me);
    Stops(BoardOf(s), c, me, Blocked);
    assert BoardOf(s') == Become(Sit(BoardOf(s), c, None, None), me, Blocked);
  }

  lemma MarkContexts(s: State, c: Cpu)
    requires Shaped(s) && c < |s.cpus| && CpuOk(s, c) && s.cpus[c].pc.WaitMark? && s.cpus[c].pc.me in s.threads
    requires C.Contexts(OfficeOf(s))
    ensures C.Contexts(OfficeOf(DoMark(s, c)))
  {
    var s' := DoMark(s, c);
    var me := s.cpus[c].pc.me;
    Views(s, s', c);
    ViewThread(s, s', me);
    C.Marks(OfficeOf(s), c, me);
    assert OfficeOf(s') == C.Put(OfficeOf(s), me, OfficeOf(s).files[me].(st := Blocked));
  }

  lemma MarkCore(s: State, c: Cpu)
    requires Core(s) && c < |s.cpus| && s.cpus[c].pc.WaitMark? && s.cpus[c].pc.me in s.threads
    ensures Core(DoMark(s, c))
  {
    assert CpuOk(s, c);
    MarkSound(s, c);
    MarkTokens(s, c);
    MarkContexts(s, c);
    Assemble(s, DoMark(s, c), c);
  }

  lemma PickSound(s: State, c: Cpu)
    requires Shaped(s) && CpusOk(s) && c < |s.cpus| && s.cpus[c].pc.WaitPick?
    requires forall t :: t in s.threads ==> t < s.nextTid
    ensures Sound(s, DoPick(s, c), c)
  {
    var s' := DoPick(s, c);
    assert CpuOk(s, c);
    forall d | 0 <= d < |s.cpus| && d != c ensures SpawnPending(s', s.cpus[d].pc) { assert CpuOk(s, d); }
  }

  lemma PickTokens(s: State, c: Cpu)
    requires Shaped(s) && c < |s.cpus| && CpuOk(s, c) && s.cpus[c].pc.WaitPick?
    requires Tokens(BoardOf(s))
    ensures Tokens(BoardOf(DoPick(s, c)))
  {
    var s' := DoPick(s, c);
    Views(s, s', c);
    ViewSame(s, s');
    if s.queues[c] == [] {
      BoardSame(s, s', c);
    } else {
      Takes(BoardOf(s), c);
      assert BoardOf(s') == Dequeue(Sit(BoardOf(s), c, Some(s.queues[c][0]), None), c);
    }
  }

  lemma PickContexts(s: State, c: Cpu)
    requires Shaped(s) && c < |s.cpus| && CpuOk(s, c) && s.cpus[c].pc.WaitPick?
    requires C.Contexts(OfficeOf(s))
    ensures C.Contexts(OfficeOf(DoPick(s, c)))
  {
    var s' := DoPick(s, c);
    ViewSame(s, s');
    OfficeSame(s, s', c);
  }

  lemma PickCore(s: State, c: Cpu)
    requires Core(s) && c < |s.cpus| && s.cpus[c].pc.WaitPick?
    ensures Core(DoPick(s, c))
  {
    assert CpuOk(s, c);
    PickSound(s, c);
    PickTokens(s, c);
    PickContexts(s, c);
    Assemble(s, DoPick(s, c), c);
  }

  lemma HandSound(s: State, c: Cpu)
    requires Shaped(s) && CpusOk(s) && c < |s.cpus| && s.cpus[c].pc.WaitHand?
    requires forall t :: t in s.threads ==> t < s.nextTid
    ensures Sound(s, DoHand(s, c), c)
  {
    var s' := DoHand(s, c);
    assert CpuOk(s, c);
    forall d | 0 <= d < |s.cpus| && d != c ensures SpawnPending(s', s.cpus[d].pc) { assert CpuOk(s, d); }
  }

  lemma HandTokens(s: State, c: Cpu)
    requires Shaped(s) && c < |s.cpus| && CpuOk(s, c) && s.cpus[c].pc.WaitHand?
    requires Tokens(BoardOf(s))
    ensures Tokens(BoardOf(DoHand(s, c)))
  {
    var s' := DoHand(s, c);
    ViewSame(s, s');
    BoardSame(s, s', c);
  }

  lemma HandContexts(s: State, c: Cpu)
    requires Shaped(s) && c < |s.cpus| && CpuOk(s, c) && s.cpus[c].pc.WaitHand?
    requires C.Contexts(OfficeOf(s))
    ensures C.Contexts(OfficeOf(DoHand(s, c)))
  {
    var s' := DoHand(s, c);
    Views(s, s', c);
    ViewSame(s, s');
    C.Leaves(OfficeOf(s), c, ResumeWait(s.cpus[c].pc.me));
    assert OfficeOf(s') == C.At(OfficeOf(s), c, OfficeOf(s).desks[c].(leaving := Some(ResumeWait(s.cpus[c].pc.me))));
  }

  lemma HandCore(s: State, c: Cpu)
    requires Core(s) && c < |s.cpus| && s.cpus[c].pc.WaitHand?
    ensures Core(DoHand(s, c))
  {
    assert CpuOk(s, c);
    HandSound(s, c);
    HandTokens(s, c);
    HandContexts(s, c);
    Assemble(s, DoHand(s, c), c);
  }

  lemma IdleSwitchSound(s: State, c: Cpu)
    requires Shaped(s) && CpusOk(s) && c < |s.cpus| && s.cpus[c].pc.IdlePopped?
    requires forall t :: t in s.threads ==> t < s.nextTid
    ensures Sound(s, DoIdleSwitch(s, c), c)
  {
    var s' := DoIdleSwitch(s, c);
    assert CpuOk(s, c);
    forall d | 0 <= d < |s.cpus| && d != c ensures SpawnPending(s', s.cpus[d].pc) { assert CpuOk(s, d); }
  }

  lemma IdleSwitchTokens(s: State, c: Cpu)
    requires Shaped(s) && c < |s.cpus| && CpuOk(s, c) && s.cpus[c].pc.IdlePopped?
    requires Tokens(BoardOf(s))
    ensures Tokens(BoardOf(DoIdleSwitch(s, c)))
  {
    var s' := DoIdleSwitch(s, c);
    ViewSame(s, s');
    BoardSame(s, s', c);
  }

  lemma IdleSwitchContexts(s: State, c: Cpu)
    requires Shaped(s) && c < |s.cpus| && CpuOk(s, c) && s.cpus[c].pc.IdlePopped?
    requires C.Contexts(OfficeOf(s))
    ensures C.Contexts(OfficeOf(DoIdleSwitch(s, c)))
  {
    var s' := DoIdleSwitch(s, c);
    Views(s, s', c);
    ViewSame(s, s');
    C.Leaves(OfficeOf(s), c, ResumeIdle);
    assert OfficeOf(s') == C.At(OfficeOf(s), c, OfficeOf(s).desks[c].(leaving := Some(ResumeIdle)));
  }

  lemma IdleSwitchCore(s: State, c: Cpu)
    requires Core(s) && c < |s.cpus| && s.cpus[c].pc.IdlePopped?
    ensures Core(DoIdleSwitch(s, c))
  {
    assert CpuOk(s, c);
    IdleSwitchSound(s, c);
    IdleSwitchTokens(s, c);
    IdleSwitchContexts(s, c);
    Assemble(s, DoIdleSwitch(s, c), c);
  }

  lemma SaveThreadSound(s: State, c: Cpu)
    requires Shaped(s) && CpusOk(s) && c < |s.cpus| && s.cpus[c].pc.SwitchSave? && s.cpus[c].pc.from.Thr? && PcReady(s, c)
    requires forall t :: t in s.threads ==> t < s.nextTid
    ensures Sound(s, DoSave(s, c), c)
  {
    var s' := DoSave(s, c);
    assert CpuOk(s, c);
    forall d | 0 <= d < |s.cpus| && d != c ensures SpawnPending(s', s.cpus[d].pc) { assert CpuOk(s, d); }
  }

  lemma SaveThreadTokens(s: State, c: Cpu)
    requires Shaped(s) && c < |s.cpus| && CpuOk(s, c) && s.cpus[c].pc.SwitchSave? && s.cpus[c].pc.from.Thr? && PcReady(s, c)
    requires Tokens(BoardOf(s))
    ensures Tokens(BoardOf(DoSave(s, c)))
  {
    hide Tokens;
    var s' := DoSave(s, c);
    var t := s.cpus[c].pc.from.tid;
    ViewThread(s, s', t);
    assert BoardOf(s').tokens == BoardOf(s).tokens;
    BoardSame(s, s', c);
  }

  lemma SaveThreadContexts(s: State, c: Cpu)
    requires Shaped(s) && c < |s.cpus| && CpuOk(s, c) && s.cpus[c].pc.SwitchSave? && s.cpus[c].pc.from.Thr? && PcReady(s, c)
    requires C.Contexts(OfficeOf(s))
    ensures C.Contexts(OfficeOf(DoSave(s, c)))
  {
    var s' := DoSave(s, c);
    var t, r := s.cpus[c].pc.from.tid, s.cpus[c].pc.ret;
    Views(s, s', c);
    ViewThread(s, s', t);
    var v := OfficeOf(s);
    C.Saves(v, c, t, r);
    assert OfficeOf(s') == C.Put(C.At(v, c, v.desks[c].(who := Nobody, leaving := None)), t, v.files[t].(ctx := Ctx(r, v.desks[c].data)));
  }

  lemma SaveThreadCore(s: State, c: Cpu)
    requires Core(s) && c < |s.cpus| && s.cpus[c].pc.SwitchSave? && s.cpus[c].pc.from.Thr? && PcReady(s, c)
    ensures Core(DoSave(s, c))
  {
    assert CpuOk(s, c);
    SaveThreadSound(s, c);
    SaveThreadTokens(s, c);
    SaveThreadContexts(s, c);
    Assemble(s, DoSave(s, c), c);
  }

  lemma SaveIdleSound(s: State, c: Cpu)
    requires Shaped(s) && CpusOk(s) && c < |s.cpus| && s.cpus[c].pc.SwitchSave? && !s.cpus[c].pc.from.Thr? && PcReady(s, c)
    requires forall t :: t in s.threads ==> t < s.nextTid
    ensures Sound(s, DoSave(s, c), c)
  {
    var s' := DoSave(s, c);
    assert CpuOk(s, c);
    forall d | 0 <= d < |s.cpus| && d != c ensures SpawnPending(s', s.cpus[d].pc) { assert CpuOk(s, d); }
  }

  lemma SaveIdleTokens(s: State, c: Cpu)
    requires Shaped(s) && c < |s.cpus| && CpuOk(s, c) && s.cpus[c].pc.SwitchSave? && !s.cpus[c].pc.from.Thr? && PcReady(s, c)
    requires Tokens(BoardOf(s))
    ensures Tokens(BoardOf(DoSave(s, c)))
  {
    var s' := DoSave(s, c);
    ViewSame(s, s');
    BoardSame(s, s', c);
  }

  lemma SaveIdleContexts(s: State, c: Cpu)
    requires Shaped(s) && c < |s.cpus| && CpuOk(s, c) && s.cpus[c].pc.SwitchSave? && !s.cpus[c].pc.from.Thr? && PcReady(s, c)
    requires C.Contexts(OfficeOf(s))
    ensures C.Contexts(OfficeOf(DoSave(s, c)))
  {
    var s' := DoSave(s, c);
    Views(s, s', c);
    ViewSame(s, s');
    var v := OfficeOf(s);
    C.Passes(v, c, Nobody, s.cpus[c].data);
    assert OfficeOf(s') == C.At(v, c, v.desks[c].(who := Nobody, leaving := None));
  }

  lemma SaveIdleCore(s: State, c: Cpu)
    requires Core(s) && c < |s.cpus| && s.cpus[c].pc.SwitchSave? && !s.cpus[c].pc.from.Thr? && PcReady(s, c)
    ensures Core(DoSave(s, c))
  {
    assert CpuOk(s, c);
    SaveIdleSound(s, c);
    SaveIdleTokens(s, c);
    SaveIdleContexts(s, c);
    Assemble(s, DoSave(s, c), c);
  }

  lemma LoadThreadSound(s: State, c: Cpu)
    requires Shaped(s) && CpusOk(s) && c < |s.cpus| && s.cpus[c].pc.SwitchLoad? && s.cpus[c].pc.to.Thr? && PcReady(s, c) && C.ThreadResume(s.threads[s.cpus[c].pc.to.tid].ctx.resume, s.cpus[c].pc.to.tid)
    requires forall t :: t in s.threads ==> t < s.nextTid
    ensures Sound(s, DoLoad(s, c), c)
  {
    var s' := DoLoad(s, c);
    assert CpuOk(s, c);
    forall d | 0 <= d < |s.cpus| && d != c ensures SpawnPending(s', s.cpus[d].pc) { assert CpuOk(s, d); }
  }

  lemma LoadThreadTokens(s: State, c: Cpu)
    requires Shaped(s) && c < |s.cpus| && CpuOk(s, c) && s.cpus[c].pc.SwitchLoad? && s.cpus[c].pc.to.Thr? && PcReady(s, c)
    requires Tokens(BoardOf(s))
    ensures Tokens(BoardOf(DoLoad(s, c)))
  {
    var s' := DoLoad(s, c);
    ViewSame(s, s');
    BoardSame(s, s', c);
  }

  lemma LoadThreadContexts(s: State, c: Cpu)
    requires Shaped(s) && c < |s.cpus| && CpuOk(s, c) && s.cpus[c].pc.SwitchLoad? && s.cpus[c].pc.to.Thr? && PcReady(s, c)
    requires C.Contexts(OfficeOf(s)) && Tokens(BoardOf(s))
    ensures C.Contexts(OfficeOf(DoLoad(s, c)))
  {
    var s' := DoLoad(s, c);
    var t := s.cpus[c].pc.to.tid;
    Views(s, s', c);
    ViewSame(s, s');
    var v, b := OfficeOf(s), BoardOf(s);
    assert DueHome(b, c) && b.seats[c].due == Some(t);
    forall d | 0 <= d < |s.cpus| ensures v.desks[d].newborn != Some(t) { assert HandFree(b, d); }
    C.Loads(v, c, t);
    assert OfficeOf(s') == C.At(v, c, v.desks[c].(who := Thr(t), data := v.files[t].ctx.data));
  }

  lemma LoadThreadCore(s: State, c: Cpu)
    requires Core(s) && c < |s.cpus| && s.cpus[c].pc.SwitchLoad? && s.cpus[c].pc.to.Thr? && PcReady(s, c)
    ensures Core(DoLoad(s, c))
  {
    assert CpuOk(s, c);
    LoadedIsSaved(s, c);LoadThreadSound(s, c);
    LoadThreadTokens(s, c);
    LoadThreadContexts(s, c);
    Assemble(s, DoLoad(s, c), c);
  }

  lemma LoadIdleSound(s: State, c: Cpu)
    requires Shaped(s) && CpusOk(s) && c < |s.cpus| && s.cpus[c].pc.SwitchLoad? && !s.cpus[c].pc.to.Thr? && PcReady(s, c)
    requires forall t :: t in s.threads ==> t < s.nextTid
    ensures Sound(s, DoLoad(s, c), c)
  {
    var s' := DoLoad(s, c);
    assert CpuOk(s, c);
    forall d | 0 <= d < |s.cpus| && d != c ensures SpawnPending(s', s.cpus[d].pc) { assert CpuOk(s, d); }
  }

  lemma LoadIdleTokens(s: State, c: Cpu)
    requires Shaped(s) && c < |s.cpus| && CpuOk(s, c) && s.cpus[c].pc.SwitchLoad? && !s.cpus[c].pc.to.Thr? && PcReady(s, c)
    requires Tokens(BoardOf(s))
    ensures Tokens(BoardOf(DoLoad(s, c)))
  {
    var s' := DoLoad(s, c);
    ViewSame(s, s');
    BoardSame(s, s', c);
  }

  lemma LoadIdleContexts(s: State, c: Cpu)
    requires Shaped(s) && c < |s.cpus| && CpuOk(s, c) && s.cpus[c].pc.SwitchLoad? && !s.cpus[c].pc.to.Thr? && PcReady(s, c)
    requires C.Contexts(OfficeOf(s))
    ensures C.Contexts(OfficeOf(DoLoad(s, c)))
  {
    var s' := DoLoad(s, c);
    Views(s, s', c);
    ViewSame(s, s');
    var v := OfficeOf(s);
    C.Passes(v, c, IdleLoop, s.cpus[c].idle.data);
    assert OfficeOf(s') == C.At(v, c, v.desks[c].(who := IdleLoop, data := s.cpus[c].idle.data, leaving := None));
  }

  lemma LoadIdleCore(s: State, c: Cpu)
    requires Core(s) && c < |s.cpus| && s.cpus[c].pc.SwitchLoad? && !s.cpus[c].pc.to.Thr? && PcReady(s, c)
    ensures Core(DoLoad(s, c))
  {
    assert CpuOk(s, c);
    LoadIdleSound(s, c);
    LoadIdleTokens(s, c);
    LoadIdleContexts(s, c);
    Assemble(s, DoLoad(s, c), c);
  }

  lemma ScanHitSound(s: State, c: Cpu)
    requires Shaped(s) && CpusOk(s) && c < |s.cpus| && s.cpus[c].pc.WakeScan? && ScanHits(s, s.cpus[c].pc)
    requires forall t :: t in s.threads ==> t < s.nextTid
    ensures Sound(s, DoScan(s, c), c)
  {
    var s' := DoScan(s, c);
    assert CpuOk(s, c);
    forall d | 0 <= d < |s.cpus| && d != c ensures SpawnPending(s', s.cpus[d].pc) { assert CpuOk(s, d); }
  }

  lemma ScanHitTokens(s: State, c: Cpu)
    requires Shaped(s) && c < |s.cpus| && CpuOk(s, c) && s.cpus[c].pc.WakeScan? && ScanHits(s, s.cpus[c].pc)
    requires Tokens(BoardOf(s)) && L.Exact(ThreadLock(s))
    ensures Tokens(BoardOf(DoScan(s, c)))
  {
    var s' := DoScan(s, c);
    var t := s.cpus[c].pc.i;
    Views(s, s', c);
    ViewThread(s, s', t);
    HoldingT(s, c);
    Grabs(BoardOf(s), c, t);
    assert BoardOf(s') == Become(Sit(BoardOf(s), c, Due(s.cpus[c]), Some(t)), t, Ready);
  }

  lemma ScanHitContexts(s: State, c: Cpu)
    requires Shaped(s) && c < |s.cpus| && CpuOk(s, c) && s.cpus[c].pc.WakeScan? && ScanHits(s, s.cpus[c].pc)
    requires C.Contexts(OfficeOf(s))
    ensures C.Contexts(OfficeOf(DoScan(s, c)))
  {
    var s' := DoScan(s, c);
    var t := s.cpus[c].pc.i;
    Views(s, s', c);
    ViewThread(s, s', t);
    C.Wakes(OfficeOf(s), c, t);
    assert OfficeOf(s') == C.Put(OfficeOf(s), t, OfficeOf(s).files[t].(st := Ready));
  }

  lemma ScanHitCore(s: State, c: Cpu)
    requires Core(s) && c < |s.cpus| && s.cpus[c].pc.WakeScan? && ScanHits(s, s.cpus[c].pc)
    ensures Core(DoScan(s, c))
  {
    assert CpuOk(s, c);
    ScanHitSound(s, c);
    ScanHitTokens(s, c);
    ScanHitContexts(s, c);
    Assemble(s, DoScan(s, c), c);
  }

  lemma CheckHitSound(s: State, c: Cpu)
    requires Shaped(s) && CpusOk(s) && c < |s.cpus| && s.cpus[c].pc.RescueCheck? && CheckHits(s, s.cpus[c].pc)
    requires forall t :: t in s.threads ==> t < s.nextTid
    ensures Sound(s, DoRescueCheck(s, c), c)
  {
    var s' := DoRescueCheck(s, c);
    assert CpuOk(s, c);
    forall d | 0 <= d < |s.cpus| && d != c ensures SpawnPending(s', s.cpus[d].pc) { assert CpuOk(s, d); }
  }

  lemma CheckHitTokens(s: State, c: Cpu)
    requires Shaped(s) && c < |s.cpus| && CpuOk(s, c) && s.cpus[c].pc.RescueCheck? && CheckHits(s, s.cpus[c].pc)
    requires Tokens(BoardOf(s)) && L.Exact(ThreadLock(s))
    ensures Tokens(BoardOf(DoRescueCheck(s, c)))
  {
    var s' := DoRescueCheck(s, c);
    var t := s.cpus[c].pc.t;
    Views(s, s', c);
    ViewThread(s, s', t);
    HoldingT(s, c);
    Grabs(BoardOf(s), c, t);
    assert BoardOf(s') == Become(Sit(BoardOf(s), c, Due(s.cpus[c]), Some(t)), t, Ready);
  }

  lemma CheckHitContexts(s: State, c: Cpu)
    requires Shaped(s) && c < |s.cpus| && CpuOk(s, c) && s.cpus[c].pc.RescueCheck? && CheckHits(s, s.cpus[c].pc)
    requires C.Contexts(OfficeOf(s))
    ensures C.Contexts(OfficeOf(DoRescueCheck(s, c)))
  {
    var s' := DoRescueCheck(s, c);
    var t := s.cpus[c].pc.t;
    Views(s, s', c);
    ViewThread(s, s', t);
    C.Wakes(OfficeOf(s), c, t);
    assert OfficeOf(s') == C.Put(OfficeOf(s), t, OfficeOf(s).files[t].(st := Ready));
  }

  lemma CheckHitCore(s: State, c: Cpu)
    requires Core(s) && c < |s.cpus| && s.cpus[c].pc.RescueCheck? && CheckHits(s, s.cpus[c].pc)
    ensures Core(DoRescueCheck(s, c))
  {
    assert CpuOk(s, c);
    CheckHitSound(s, c);
    CheckHitTokens(s, c);
    CheckHitContexts(s, c);
    Assemble(s, DoRescueCheck(s, c), c);
  }

  lemma WakePushSound(s: State, c: Cpu)
    requires Shaped(s) && CpusOk(s) && c < |s.cpus| && s.cpus[c].pc.WakePush? && PcReady(s, c)
    requires forall t :: t in s.threads ==> t < s.nextTid
    ensures Sound(s, DoWakePush(s, c), c)
  {
    var s' := DoWakePush(s, c);
    assert CpuOk(s, c);
    forall d | 0 <= d < |s.cpus| && d != c ensures SpawnPending(s', s.cpus[d].pc) { assert CpuOk(s, d); }
  }

  lemma WakePushTokens(s: State, c: Cpu)
    requires Shaped(s) && c < |s.cpus| && CpuOk(s, c) && s.cpus[c].pc.WakePush? && PcReady(s, c)
    requires Tokens(BoardOf(s))
    ensures Tokens(BoardOf(DoWakePush(s, c)))
  {
    hide Tokens;
    var s' := DoWakePush(s, c);
    var t := s.cpus[c].pc.i;
    Views(s, s', c);
    ViewSame(s, s');
    Drops(BoardOf(s), c, t);
    assert BoardOf(s') == Enqueue(Sit(BoardOf(s), c, Due(s.cpus[c]), None), s.threads[t].home, t);
  }

  lemma WakePushContexts(s: State, c: Cpu)
    requires Shaped(s) && c < |s.cpus| && CpuOk(s, c) && s.cpus[c].pc.WakePush? && PcReady(s, c)
    requires C.Contexts(OfficeOf(s))
    ensures C.Contexts(OfficeOf(DoWakePush(s, c)))
  {
    var s' := DoWakePush(s, c);
    ViewSame(s, s');
    OfficeSame(s, s', c);
  }

  lemma WakePushCore(s: State, c: Cpu)
    requires Core(s) && c < |s.cpus| && s.cpus[c].pc.WakePush? && PcReady(s, c)
    ensures Core(DoWakePush(s, c))
  {
    assert CpuOk(s, c);
    WakePushSound(s, c);
    WakePushTokens(s, c);
    WakePushContexts(s, c);
    Assemble(s, DoWakePush(s, c), c);
  }

  lemma RescuePushSound(s: State, c: Cpu)
    requires Shaped(s) && CpusOk(s) && c < |s.cpus| && s.cpus[c].pc.RescuePush? && PcReady(s, c)
    requires forall t :: t in s.threads ==> t < s.nextTid
    ensures Sound(s, DoRescuePush(s, c), c)
  {
    var s' := DoRescuePush(s, c);
    assert CpuOk(s, c);
    forall d | 0 <= d < |s.cpus| && d != c ensures SpawnPending(s', s.cpus[d].pc) { assert CpuOk(s, d); }
  }

  /** The rescued thread is on no queue yet, so process_rescues' own check never refuses it. */
  lemma RescueNotQueued(s: State, c: Cpu)
    requires Shaped(s) && c < |s.cpus| && s.cpus[c].pc.RescuePush? && PcReady(s, c) && Tokens(BoardOf(s))
    ensures s.cpus[c].pc.t !in s.queues[s.threads[s.cpus[c].pc.t].home]
  {
    assert HandFree(BoardOf(s), c) && BoardOf(s).seats[c].hand == Some(s.cpus[c].pc.t);
  }

  lemma RescuePushTokens(s: State, c: Cpu)
    requires Shaped(s) && c < |s.cpus| && CpuOk(s, c) && s.cpus[c].pc.RescuePush? && PcReady(s, c)
    requires Tokens(BoardOf(s))
    ensures Tokens(BoardOf(DoRescuePush(s, c)))
  {
    hide Tokens;
    RescueNotQueued(s, c);
    var s' := DoRescuePush(s, c);
    var t := s.cpus[c].pc.t;
    Views(s, s', c);
    ViewSame(s, s');
    Drops(BoardOf(s), c, t);
    assert BoardOf(s') == Enqueue(Sit(BoardOf(s), c, Due(s.cpus[c]), None), s.threads[t].home, t);
  }

  lemma RescuePushContexts(s: State, c: Cpu)
    requires Shaped(s) && c < |s.cpus| && CpuOk(s, c) && s.cpus[c].pc.RescuePush? && PcReady(s, c)
    requires C.Contexts(OfficeOf(s))
    ensures C.Contexts(OfficeOf(DoRescuePush(s, c)))
  {
    var s' := DoRescuePush(s, c);
    ViewSame(s, s');
    OfficeSame(s, s', c);
  }

  lemma RescuePushCore(s: State, c: Cpu)
    requires Core(s) && c < |s.cpus| && s.cpus[c].pc.RescuePush? && PcReady(s, c)
    ensures Core(DoRescuePush(s, c))
  {
    assert CpuOk(s, c);
    RescuePushSound(s, c);
    RescuePushTokens(s, c);
    RescuePushContexts(s, c);
    Assemble(s, DoRescuePush(s, c), c);
  }

  lemma InstallSound(s: State, c: Cpu)
    requires Shaped(s) && CpusOk(s) && c < |s.cpus| && s.cpus[c].pc.SpawnInstall? && L.Distinct(Reservations(s))
    requires forall t :: t in s.threads ==> t < s.nextTid
    ensures Sound(s, DoInstall(s, c), c)
  {
    var s' := DoInstall(s, c);
    assert CpuOk(s, c);
    forall d | 0 <= d < |s.cpus| && d != c ensures SpawnPending(s', s.cpus[d].pc) { assert CpuOk(s, d); assert Reservations(s)[c] == Some(s.cpus[c].pc.t); assert Reservations(s)[d] != Some(s.cpus[c].pc.t); }
  }

  lemma InstallTokens(s: State, c: Cpu)
    requires Shaped(s) && c < |s.cpus| && CpuOk(s, c) && s.cpus[c].pc.SpawnInstall?
    requires Tokens(BoardOf(s)) && L.Exact(ThreadLock(s))
    ensures Tokens(BoardOf(DoInstall(s, c)))
  {
    var s' := DoInstall(s, c);
    var t := s.cpus[c].pc.t;
    Views(s, s', c);
    ViewThread(s, s', t);
    HoldingT(s, c);
    Births(BoardOf(s), c, t);
    assert BoardOf(s') == Sit(BoardOf(s), c, Due(s.cpus[c]), Some(t)).(tokens := BoardOf(s).tokens[t := Token(Ready, 0)]);
  }

  lemma InstallContexts(s: State, c: Cpu)
    requires Shaped(s) && c < |s.cpus| && CpuOk(s, c) && s.cpus[c].pc.SpawnInstall?
    requires C.Contexts(OfficeOf(s))
    ensures C.Contexts(OfficeOf(DoInstall(s, c)))
  {
    var s' := DoInstall(s, c);
    var t, x := s.cpus[c].pc.t, s.cpus[c].data;
    Views(s, s', c);
    ViewThread(s, s', t);
    var v := OfficeOf(s);
    C.Births(v, c, t, x);
    assert OfficeOf(s') == C.Put(C.At(v, c, v.desks[c].(newborn := Some(t))), t, C.File(Ready, 0, Ctx(ResumeChild, x), x));
  }

  lemma InstallCore(s: State, c: Cpu)
    requires Core(s) && c < |s.cpus| && s.cpus[c].pc.SpawnInstall?
    ensures Core(DoInstall(s, c))
  {
    assert CpuOk(s, c);
    InstallSound(s, c);
    InstallTokens(s, c);
    InstallContexts(s, c);
    Assemble(s, DoInstall(s, c), c);
  }

  lemma SettleSound(s: State, c: Cpu, q: Cpu)
    requires Shaped(s) && CpusOk(s) && c < |s.cpus| && Enabled(s, c, SpawnOn(q)) && OneHand(BoardOf(s))
    requires forall t :: t in s.threads ==> t < s.nextTid
    ensures Sound(s, DoSettle(s, c, q), c)
  {
    var s' := DoSettle(s, c, q);
    assert CpuOk(s, c);
    forall d | 0 <= d < |s.cpus| && d != c ensures SpawnPending(s', s.cpus[d].pc) { assert CpuOk(s, d); assert BoardOf(s).seats[c].hand.Some?; assert BoardOf(s).seats[d].hand == None; }
  }

  lemma SettleTokens(s: State, c: Cpu, q: Cpu)
    requires Shaped(s) && c < |s.cpus| && CpuOk(s, c) && Enabled(s, c, SpawnOn(q))
    requires Tokens(BoardOf(s))
    ensures Tokens(BoardOf(DoSettle(s, c, q)))
  {
    var s' := DoSettle(s, c, q);
    var t := s.cpus[c].pc.t;
    Views(s, s', c);
    ViewThread(s, s', t);
    Settles(BoardOf(s), c, t, q);
    assert BoardOf(s') == BoardOf(s).(tokens := BoardOf(s).tokens[t := BoardOf(s).tokens[t].(home := q)]);
  }

  lemma SettleContexts(s: State, c: Cpu, q: Cpu)
    requires Shaped(s) && c < |s.cpus| && CpuOk(s, c) && Enabled(s, c, SpawnOn(q))
    requires C.Contexts(OfficeOf(s))
    ensures C.Contexts(OfficeOf(DoSettle(s, c, q)))
  {
    var s' := DoSettle(s, c, q);
    var t := s.cpus[c].pc.t;
    Views(s, s', c);
    ViewThread(s, s', t);
    C.Settles(OfficeOf(s), c, t, q);
    assert OfficeOf(s') == C.Put(OfficeOf(s), t, OfficeOf(s).files[t].(home := q));
  }

  lemma SettleCore(s: State, c: Cpu, q: Cpu)
    requires Core(s) && c < |s.cpus| && Enabled(s, c, SpawnOn(q))
    ensures Core(DoSettle(s, c, q))
  {
    assert CpuOk(s, c);
    SettleSound(s, c, q);
    SettleTokens(s, c, q);
    SettleContexts(s, c, q);
    Assemble(s, DoSettle(s, c, q), c);
  }

  lemma SpawnPushSound(s: State, c: Cpu)
    requires Shaped(s) && CpusOk(s) && c < |s.cpus| && s.cpus[c].pc.SpawnPush? && s.cpus[c].pc.c < |s.cpus|
    requires forall t :: t in s.threads ==> t < s.nextTid
    ensures Sound(s, DoSpawnPush(s, c), c)
  {
    var s' := DoSpawnPush(s, c);
    assert CpuOk(s, c);
    forall d | 0 <= d < |s.cpus| && d != c ensures SpawnPending(s', s.cpus[d].pc) { assert CpuOk(s, d); }
  }

  lemma SpawnPushTokens(s: State, c: Cpu)
    requires Shaped(s) && c < |s.cpus| && CpuOk(s, c) && s.cpus[c].pc.SpawnPush? && s.cpus[c].pc.c < |s.cpus|
    requires Tokens(BoardOf(s))
    ensures Tokens(BoardOf(DoSpawnPush(s, c)))
  {
    var s' := DoSpawnPush(s, c);
    var t := s.cpus[c].pc.t;
    Views(s, s', c);
    ViewSame(s, s');
    Drops(BoardOf(s), c, t);
    assert BoardOf(s') == Enqueue(Sit(BoardOf(s), c, Due(s.cpus[c]), None), s.cpus[c].pc.c, t);
  }

  lemma SpawnPushContexts(s: State, c: Cpu)
    requires Shaped(s) && c < |s.cpus| && CpuOk(s, c) && s.cpus[c].pc.SpawnPush? && s.cpus[c].pc.c < |s.cpus|
    requires C.Contexts(OfficeOf(s))
    ensures C.Contexts(OfficeOf(DoSpawnPush(s, c)))
  {
    var s' := DoSpawnPush(s, c);
    Views(s, s', c);
    ViewSame(s, s');
    C.Releases(OfficeOf(s), c);
    assert OfficeOf(s') == C.At(OfficeOf(s), c, OfficeOf(s).desks[c].(newborn := None));
  }

  lemma SpawnPushCore(s: State, c: Cpu)
    requires Core(s) && c < |s.cpus| && s.cpus[c].pc.SpawnPush? && s.cpus[c].pc.c < |s.cpus|
    ensures Core(DoSpawnPush(s, c))
  {
    assert CpuOk(s, c);
    SpawnPushSound(s, c);
    SpawnPushTokens(s, c);
    SpawnPushContexts(s, c);
    Assemble(s, DoSpawnPush(s, c), c);
  }

  lemma ExitMarkSound(s: State, c: Cpu)
    requires Shaped(s) && CpusOk(s) && c < |s.cpus| && s.cpus[c].pc.ExitMark? && PcReady(s, c)
    requires forall t :: t in s.threads ==> t < s.nextTid
    ensures Sound(s, DoExitMark(s, c), c)
  {
    var s' := DoExitMark(s, c);
    assert CpuOk(s, c);
    forall d | 0 <= d < |s.cpus| && d != c ensures SpawnPending(s', s.cpus[d].pc) { assert CpuOk(s, d); }
  }

  lemma ExitMarkTokens(s: State, c: Cpu)
    requires Shaped(s) && c < |s.cpus| && CpuOk(s, c) && s.cpus[c].pc.ExitMark? && PcReady(s, c)
    requires Tokens(BoardOf(s))
    ensures Tokens(BoardOf(DoExitMark(s, c)))
  {
    hide Tokens;
    var s' := DoExitMark(s, c);
    var t := Victim(s.cpus[c].pc.cur);
    Views(s, s', c);
    ViewThread(s, s', t);
    Stops(BoardOf(s), c, t, Dead);
    assert BoardOf(s') == Become(Sit(BoardOf(s), c, None, None), t, Dead);
  }

  lemma ExitMarkContexts(s: State, c: Cpu)
    requires Shaped(s) && c < |s.cpus| && CpuOk(s, c) && s.cpus[c].pc.ExitMark? && PcReady(s, c)
    requires C.Contexts(OfficeOf(s))
    ensures C.Contexts(OfficeOf(DoExitMark(s, c)))
  {
    var s' := DoExitMark(s, c);
    var t := Victim(s.cpus[c].pc.cur);
    Views(s, s', c);
    ViewThread(s, s', t);
    var v := OfficeOf(s);
    C.Dies(v, c, t);
    assert OfficeOf(s') == C.Put(C.At(v, c, v.desks[c].(leaving := Some(Halt))), t, v.files[t].(st := Dead));
  }

  lemma ExitMarkCore(s: State, c: Cpu)
    requires Core(s) && c < |s.cpus| && s.cpus[c].pc.ExitMark? && PcReady(s, c)
    ensures Core(DoExitMark(s, c))
  {
    assert CpuOk(s, c);
    ExitMarkSound(s, c);
    ExitMarkTokens(s, c);
    ExitMarkContexts(s, c);
    Assemble(s, DoExitMark(s, c), c);
  }

  lemma YieldBootSound(s: State, c: Cpu)
    requires Shaped(s) && CpusOk(s) && c < |s.cpus| && Enabled(s, c, Yield) && s.queues[c] != [] && s.cpus[c].current == None
    requires forall t :: t in s.threads ==> t < s.nextTid
    ensures Sound(s, DoYield(s, c), c)
  {
    var s' := DoYield(s, c);
    assert CpuOk(s, c);
    forall d | 0 <= d < |s.cpus| && d != c ensures SpawnPending(s', s.cpus[d].pc) { assert CpuOk(s, d); }
  }

  lemma YieldBootTokens(s: State, c: Cpu)
    requires Shaped(s) && c < |s.cpus| && CpuOk(s, c) && Enabled(s, c, Yield) && s.queues[c] != [] && s.cpus[c].current == None
    requires Tokens(BoardOf(s))
    ensures Tokens(BoardOf(DoYield(s, c)))
  {
    var s' := DoYield(s, c);
    Views(s, s', c);
    ViewSame(s, s');
    Takes(BoardOf(s), c);
    assert BoardOf(s') == Dequeue(Sit(BoardOf(s), c, Some(s.queues[c][0]), None), c);
  }

  lemma YieldBootContexts(s: State, c: Cpu)
    requires Shaped(s) && c < |s.cpus| && CpuOk(s, c) && Enabled(s, c, Yield) && s.queues[c] != [] && s.cpus[c].current == None
    requires C.Contexts(OfficeOf(s))
    ensures C.Contexts(OfficeOf(DoYield(s, c)))
  {
    var s' := DoYield(s, c);
    Views(s, s', c);
    ViewSame(s, s');
    var v := OfficeOf(s);
    C.Passes(v, c, Nobody, s.cpus[c].data);
    assert OfficeOf(s') == C.At(v, c, v.desks[c].(who := Nobody, leaving := None));
  }

  lemma YieldBootCore(s: State, c: Cpu)
    requires Core(s) && c < |s.cpus| && Enabled(s, c, Yield) && s.queues[c] != [] && s.cpus[c].current == None
    ensures Core(DoYield(s, c))
  {
    assert CpuOk(s, c);
    YieldBootSound(s, c);
    YieldBootTokens(s, c);
    YieldBootContexts(s, c);
    Assemble(s, DoYield(s, c), c);
  }

  lemma YieldThreadSound(s: State, c: Cpu)
    requires Shaped(s) && CpusOk(s) && c < |s.cpus| && Enabled(s, c, Yield) && s.queues[c] != [] && s.cpus[c].current.Some?
    requires forall t :: t in s.threads ==> t < s.nextTid
    ensures Sound(s, DoYield(s, c), c)
  {
    var s' := DoYield(s, c);
    assert CpuOk(s, c);
    forall d | 0 <= d < |s.cpus| && d != c ensures SpawnPending(s', s.cpus[d].pc) { assert CpuOk(s, d); }
  }

  lemma YieldThreadTokens(s: State, c: Cpu)
    requires Shaped(s) && c < |s.cpus| && CpuOk(s, c) && Enabled(s, c, Yield) && s.queues[c] != [] && s.cpus[c].current.Some?
    requires Tokens(BoardOf(s))
    ensures Tokens(BoardOf(DoYield(s, c)))
  {
    var s' := DoYield(s, c);
    var t := s.cpus[c].current.value;
    Views(s, s', c);
    ViewSame(s, s');
    Swaps(BoardOf(s), c, t);
    assert BoardOf(s') == Enqueue(Dequeue(Sit(BoardOf(s), c, Some(s.queues[c][0]), None), c), c, t);
  }

  lemma YieldThreadContexts(s: State, c: Cpu)
    requires Shaped(s) && c < |s.cpus| && CpuOk(s, c) && Enabled(s, c, Yield) && s.queues[c] != [] && s.cpus[c].current.Some?
    requires C.Contexts(OfficeOf(s)) && Tokens(BoardOf(s))
    ensures C.Contexts(OfficeOf(DoYield(s, c)))
  {
    var s' := DoYield(s, c);
    Views(s, s', c);
    ViewSame(s, s');
    var v := OfficeOf(s);
    assert DueHome(BoardOf(s), c) && BoardOf(s).seats[c].due == Some(s.cpus[c].who.tid);
    C.Leaves(v, c, ResumeYield);
    assert OfficeOf(s') == C.At(v, c, v.desks[c].(leaving := Some(ResumeYield)));
  }

  lemma YieldThreadCore(s: State, c: Cpu)
    requires Core(s) && c < |s.cpus| && Enabled(s, c, Yield) && s.queues[c] != [] && s.cpus[c].current.Some?
    ensures Core(DoYield(s, c))
  {
    assert CpuOk(s, c);
    YieldThreadSound(s, c);
    YieldThreadTokens(s, c);
    YieldThreadContexts(s, c);
    Assemble(s, DoYield(s, c), c);
  }

  lemma IdlePopSound(s: State, c: Cpu)
    requires Shaped(s) && CpusOk(s) && c < |s.cpus| && Enabled(s, c, IdlePop) && s.queues[c] != []
    requires forall t :: t in s.threads ==> t < s.nextTid
    ensures Sound(s, DoIdlePop(s, c), c)
  {
    var s' := DoIdlePop(s, c);
    assert CpuOk(s, c);
    forall d | 0 <= d < |s.cpus| && d != c ensures SpawnPending(s', s.cpus[d].pc) { assert CpuOk(s, d); }
  }

  lemma IdlePopTokens(s: State, c: Cpu)
    requires Shaped(s) && c < |s.cpus| && CpuOk(s, c) && Enabled(s, c, IdlePop) && s.queues[c] != []
    requires Tokens(BoardOf(s))
    ensures Tokens(BoardOf(DoIdlePop(s, c)))
  {
    var s' := DoIdlePop(s, c);
    Views(s, s', c);
    ViewSame(s, s');
    Takes(BoardOf(s), c);
    assert BoardOf(s') == Dequeue(Sit(BoardOf(s), c, Some(s.queues[c][0]), None), c);
  }

  lemma IdlePopContexts(s: State, c: Cpu)
    requires Shaped(s) && c < |s.cpus| && CpuOk(s, c) && Enabled(s, c, IdlePop) && s.queues[c] != []
    requires C.Contexts(OfficeOf(s))
    ensures C.Contexts(OfficeOf(DoIdlePop(s, c)))
  {
    var s' := DoIdlePop(s, c);
    ViewSame(s, s');
    OfficeSame(s, s', c);
  }

  lemma IdlePopCore(s: State, c: Cpu)
    requires Core(s) && c < |s.cpus| && Enabled(s, c, IdlePop) && s.queues[c] != []
    ensures Core(DoIdlePop(s, c))
  {
    assert CpuOk(s, c);
    IdlePopSound(s, c);
    IdlePopTokens(s, c);
    IdlePopContexts(s, c);
    Assemble(s, DoIdlePop(s, c), c);
  }

  lemma ComputeSound(s: State, c: Cpu, x: nat)
    requires Shaped(s) && CpusOk(s) && c < |s.cpus| && Enabled(s, c, Compute(x))
    requires forall t :: t in s.threads ==> t < s.nextTid
    ensures Sound(s, DoCompute(s, c, x), c)
  {
    var s' := DoCompute(s, c, x);
    assert CpuOk(s, c);
    forall d | 0 <= d < |s.cpus| && d != c ensures SpawnPending(s', s.cpus[d].pc) { assert CpuOk(s, d); }
  }

  lemma ComputeTokens(s: State, c: Cpu, x: nat)
    requires Shaped(s) && c < |s.cpus| && CpuOk(s, c) && Enabled(s, c, Compute(x))
    requires Tokens(BoardOf(s))
    ensures Tokens(BoardOf(DoCompute(s, c, x)))
  {
    hide Tokens;
    var s' := DoCompute(s, c, x);
    ViewThread(s, s', s.cpus[c].who.tid);
    assert BoardOf(s').tokens == BoardOf(s).tokens;
    BoardSame(s, s', c);
  }

  lemma ComputeContexts(s: State, c: Cpu, x: nat)
    requires Shaped(s) && c < |s.cpus| && CpuOk(s, c) && Enabled(s, c, Compute(x))
    requires C.Contexts(OfficeOf(s))
    ensures C.Contexts(OfficeOf(DoCompute(s, c, x)))
  {
    var s' := DoCompute(s, c, x);
    var t := s.cpus[c].who.tid;
    Views(s, s', c);
    ViewThread(s, s', t);
    var v := OfficeOf(s);
    C.Computes(v, c, t, x);
    assert OfficeOf(s') == C.Put(C.At(v, c, v.desks[c].(data := x)), t, v.files[t].(live := x));
  }

  lemma ComputeCore(s: State, c: Cpu, x: nat)
    requires Core(s) && c < |s.cpus| && Enabled(s, c, Compute(x))
    ensures Core(DoCompute(s, c, x))
  {
    assert CpuOk(s, c);
    ComputeSound(s, c, x);
    ComputeTokens(s, c, x);
    ComputeContexts(s, c, x);
    Assemble(s, DoCompute(s, c, x), c);
  }
}

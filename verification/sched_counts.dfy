/** How many a wake wakes.  While futex_wake scans it holds THREAD_LOCK and the bucket lock of its
    word, so nobody else goes to sleep on the word or is woken from it. */
module SchedCounts {
  import opened Wrappers
  import opened PendingWakes
  import opened SchedState
  import opened SchedInvariant
  import opened SchedCore
  import opened SchedWaits
  import opened SchedWaking
  import opened SchedPreserve
  import opened SchedPromises
  import opened SchedOutcomes
  import L = SchedLocks

  /** The threads asleep on word a. */
  function SleepersOn(s: State, a: Addr): set<Tid> {
    set t | t in s.threads && Asleep(s, t) && s.threads[t].addr == a
  }

  /** The threads whose record names word a, asleep or not. */
  function Naming(s: State, a: Addr): set<Tid> {
    set t | t in s.threads && s.threads[t].addr == a
  }

  /** The threads a transition takes from Blocked. */
  function Roused(s: State, s': State): set<Tid> {
    set t | t in s.threads && s.threads[t].st == Blocked && !(t in s'.threads && s'.threads[t].st == Blocked)
  }

  /** All threads taken from Blocked between run[i] and run[j]. */
  function Taken(run: seq<State>, i: nat, j: nat): set<Tid>
    requires i <= j < |run|
    decreases j - i
  {
    if i == j then {} else Taken(run, i, j - 1) + Roused(run[j - 1], run[j])
  }

  predicate Scanning(pc: Pc) {
    pc.WakeScan? || pc.WakePush?
  }

  /** The index up to which the scan has looked. */
  function Seen(pc: Pc): nat
    requires Scanning(pc)
  {
    if pc.WakeScan? then pc.i else pc.i + 1
  }

  /** Where a scan for word a stands: `was` slept on it when the scan began, `took` have been woken. */
  predicate Progress(s: State, c: Cpu, a: Addr, count: nat, was: set<Tid>, named: set<Tid>, took: set<Tid>) {
    && Shaped(s) && c < |s.cpus| && Scanning(s.cpus[c].pc) && s.cpus[c].pc.a == a && s.cpus[c].pc.count == count
    && |took| == s.cpus[c].pc.woken <= count
    && (forall t :: t in took ==> t < Seen(s.cpus[c].pc))
    && SleepersOn(s, a) == was - took
    && (forall t :: t in SleepersOn(s, a) ==> t >= Seen(s.cpus[c].pc))
    && (a != 0 ==> Naming(s, a) <= named && took <= named)
  }

  // ---- transitions that leave sleepers alone ----

  predicate SameRest(s: State, s': State, t: Tid)
    requires t in s.threads && t in s'.threads
  {
    && (s'.threads[t].st == Blocked <==> s.threads[t].st == Blocked)
    && s'.threads[t].addr == s.threads[t].addr && Marking(s', t) == Marking(s, t)
  }

  lemma NobodyMoves(s: State, s': State, a: Addr)
    requires s'.threads.Keys == s.threads.Keys && forall t :: t in s.threads ==> SameRest(s, s', t)
    ensures SleepersOn(s', a) == SleepersOn(s, a) && Naming(s', a) == Naming(s, a) && Roused(s, s') == {}
  {
    forall t | t in s.threads ensures Asleep(s', t) == Asleep(s, t) { assert SameRest(s, s', t); }
  }

  /** One thread that is not asleep on the word before or after, and is not taken from Blocked. */
  lemma OneMoves(s: State, s': State, a: Addr, u: Tid)
    requires u in s.threads && s'.threads.Keys == s.threads.Keys && forall t :: t in s.threads && t != u ==> SameRest(s, s', t)
    requires u !in SleepersOn(s, a) && u !in SleepersOn(s', a)
    requires (s.threads[u].st == Blocked ==> s'.threads[u].st == Blocked) && (s'.threads[u].addr == a ==> s.threads[u].addr == a)
    ensures SleepersOn(s', a) == SleepersOn(s, a) && Naming(s', a) <= Naming(s, a) && Roused(s, s') == {}
  {
    forall t | t in s.threads && t != u ensures Asleep(s', t) == Asleep(s, t) { assert SameRest(s, s', t); }
  }

  // ---- steps of the scanning CPU ----

  lemma HitSets(s: State, c: Cpu)
    requires Shaped(s) && c < |s.cpus| && s.cpus[c].pc.WakeScan? && ScanHits(s, s.cpus[c].pc)
    ensures var s', a, u := DoScan(s, c), s.cpus[c].pc.a, s.cpus[c].pc.i;
      && Roused(s, s') == {u} && SleepersOn(s', a) == SleepersOn(s, a) - {u} && u in Naming(s, a)
      && (a != 0 ==> Naming(s', a) <= Naming(s, a))
  {
    var s', u := DoScan(s, c), s.cpus[c].pc.i;
    forall t | t in s.threads && t != u ensures SameRest(s, s', t) {}
    hide Marking, DoScan;
    forall t | t in s.threads && t != u ensures Asleep(s', t) == Asleep(s, t) { assert SameRest(s, s', t); }
  }

  lemma {:induction false} OneMore(took: set<Tid>, u: Tid)
    requires u !in took
    ensures |took + {u}| == |took| + 1
  {
  }

  lemma HitProgress(s: State, c: Cpu, a: Addr, count: nat, was: set<Tid>, named: set<Tid>, took: set<Tid>)
    requires Progress(s, c, a, count, was, named, took) && s.cpus[c].pc.WakeScan? && ScanHits(s, s.cpus[c].pc)
    ensures Progress(DoScan(s, c), c, a, count, was, named, took + Roused(s, DoScan(s, c)))
  {
    HitSets(s, c);
    OneMore(took, s.cpus[c].pc.i);
    hide SleepersOn, Naming, Roused;
  }

  lemma MissProgress(s: State, c: Cpu, a: Addr, count: nat, was: set<Tid>, named: set<Tid>, took: set<Tid>)
    requires Progress(s, c, a, count, was, named, took) && s.cpus[c].pc.WakeScan? && !ScanHits(s, s.cpus[c].pc)
    requires s.cpus[c].pc.i < MAX_THREADS && s.cpus[c].pc.woken < count
    ensures Progress(DoScan(s, c), c, a, count, was, named, took + Roused(s, DoScan(s, c)))
  {
    var s' := DoScan(s, c);
    assert s.cpus[c].pc.i !in SleepersOn(s, a);
    forall t | t in s.threads ensures SameRest(s, s', t) {}
    NobodyMoves(s, s', a);
    hide SleepersOn, Naming, Roused, SameRest;
    assert took + {} == took;
  }

  lemma PushProgress(s: State, c: Cpu, a: Addr, count: nat, was: set<Tid>, named: set<Tid>, took: set<Tid>)
    requires Progress(s, c, a, count, was, named, took) && s.cpus[c].pc.WakePush? && PcReady(s, c)
    ensures Progress(DoWakePush(s, c), c, a, count, was, named, took + Roused(s, DoWakePush(s, c)))
  {
    var s' := DoWakePush(s, c);
    forall t | t in s.threads ensures SameRest(s, s', t) {}
    NobodyMoves(s, s', a);
    hide SleepersOn, Naming, Roused, SameRest;
    assert took + {} == took;
  }

  // ---- steps of the other CPUs ----

  predicate Rests(x: Thread, y: Thread) {
    (y.st == Blocked <==> x.st == Blocked) && y.addr == x.addr && y.home == x.home
  }

  predicate AllRest(s: State, s': State) {
    s'.threads.Keys == s.threads.Keys && forall t :: t in s.threads ==> Rests(s.threads[t], s'.threads[t])
  }

  lemma EntryRests(s: State, e: Cpu, act: Action)
    requires Enabled(s, e, act) && !act.Proceed? && !act.SpawnOn?
    ensures AllRest(s, Do(s, e, act))
  {
    hide Bucket;
  }

  lemma SameThreadsRest(s: State, s': State)
    requires s'.threads == s.threads
    ensures AllRest(s, s')
  {
  }

  lemma AcquireRests(s: State, e: Cpu)
    requires Enabled(s, e, Proceed) && Waiting(s.cpus[e].pc)
    ensures AllRest(s, DoAcquire(s, e))
  {
    hide Bucket, AllRest;
    SameThreadsRest(s, DoAcquire(s, e));
  }

  lemma CheckRests(s: State, e: Cpu)
    requires Enabled(s, e, Proceed) && s.cpus[e].pc.WaitCheck?
    ensures AllRest(s, DoWaitCheck(s, e))
  {
    hide Bucket, Consume, WaitVerdict;
  }

  lemma WaiterRests(s: State, e: Cpu)
    requires Enabled(s, e, Proceed)
    ensures s.cpus[e].pc.WaitPick? ==> AllRest(s, DoPick(s, e))
    ensures s.cpus[e].pc.WaitHand? ==> AllRest(s, DoHand(s, e))
    ensures s.cpus[e].pc.WaitResult? ==> AllRest(s, DoResult(s, e))
  {
  }

  lemma SwitchRests(s: State, e: Cpu)
    requires Enabled(s, e, Proceed)
    ensures s.cpus[e].pc.SwitchSave? ==> AllRest(s, DoSave(s, e))
    ensures s.cpus[e].pc.SwitchLoad? ==> AllRest(s, DoLoad(s, e))
    ensures s.cpus[e].pc.Resuming? ==> AllRest(s, DoRelease(s, e))
    ensures s.cpus[e].pc.IdleClear? ==> AllRest(s, DoIdleClear(s, e))
    ensures s.cpus[e].pc.IdlePopped? ==> AllRest(s, DoIdleSwitch(s, e))
  {
  }

  lemma EndRests(s: State, e: Cpu)
    requires Enabled(s, e, Proceed) && (s.cpus[e].pc.ExitMark? ==> s.threads[Victim(s.cpus[e].pc.cur)].st != Blocked)
    ensures s.cpus[e].pc.WakeUnlock? ==> AllRest(s, DoWakeUnlock(s, e))
    ensures s.cpus[e].pc.RescueUnlock? ==> AllRest(s, Go(SetLock(s, s.cpus[e].pc.b, false), e, Safe))
    ensures s.cpus[e].pc.ExitMark? ==> AllRest(s, DoExitMark(s, e))
  {
    hide Bucket;
  }

  /** Steps that neither mark a waiter nor need THREAD_LOCK. */
  predicate Harmless(pc: Pc) {
    !pc.WaitMark? && !pc.WaitFields? && HoldsT(pc) == None
  }

  lemma ProceedRests(s: State, e: Cpu)
    requires Core(s) && Enabled(s, e, Proceed) && Harmless(s.cpus[e].pc)
    ensures AllRest(s, DoProceed(s, e))
  {
    Runner(s, e);
    if Waiting(s.cpus[e].pc) { AcquireRests(s, e); }
    if s.cpus[e].pc.WaitCheck? { CheckRests(s, e); }
    WaiterRests(s, e);
    SwitchRests(s, e);
    EndRests(s, e);
    hide AllRest, DoAcquire, DoWaitCheck, DoPick, DoHand, DoResult, DoSave, DoLoad, DoRelease, DoIdleClear, DoIdleSwitch, DoWakeUnlock, DoExitMark, Core, CpuOk;
  }

  /** THREAD_LOCK keeps the others from everything that wakes or installs threads, and the bucket lock
      from going to sleep on the word. */
  lemma OthersWait(s: State, c: Cpu, e: Cpu)
    requires Core(s) && c < |s.cpus| && e < |s.cpus| && c != e && Scanning(s.cpus[c].pc)
    ensures HoldsT(s.cpus[e].pc) == None && s.tlock && Owned(s.cpus[e]) != Some(Bucket(s.cpus[c].pc.a))
  {
    Runner(s, c);
    var t, b := ThreadLock(s), BucketLocks(s);
    assert t.owned[c] == HoldsT(s.cpus[c].pc) && t.owned[e] == HoldsT(s.cpus[e].pc);
    assert b.owned[c] == Owned(s.cpus[c]) && b.owned[e] == Owned(s.cpus[e]);
    assert Owned(s.cpus[c]) == Some(Bucket(s.cpus[c].pc.a));
    OwnAlone(t.owned, c, e);
    OwnAlone(b.owned, c, e);
  }

  lemma OwnAlone(owned: seq<Option<nat>>, c: Cpu, e: Cpu)
    requires L.Distinct(owned) && c < |owned| && e < |owned| && c != e && owned[c].Some?
    ensures owned[e] != owned[c]
  {
    assert owned[if c < e then c else e].Some? ==> owned[if c < e then c else e] != owned[if c < e then e else c];
  }

  lemma MarkingSame(s: State, s': State, e: Cpu, t: Tid)
    requires t in s.threads && t in s'.threads && s'.threads[t].home == s.threads[t].home
    requires e < |s.cpus| == |s'.cpus| && s'.cpus == s.cpus[e := s'.cpus[e]]
    requires (s.cpus[e].pc.WaitFields? ==> s.cpus[e].pc.me != t) && (s'.cpus[e].pc.WaitFields? ==> s'.cpus[e].pc.me != t)
    ensures Marking(s', t) == Marking(s, t)
  {
  }

  /** What a step of another CPU does to the sleepers on the word: nothing. */
  predicate Undisturbed(s: State, s': State, a: Addr) {
    SleepersOn(s', a) == SleepersOn(s, a) && Naming(s', a) <= Naming(s, a) && Roused(s, s') == {}
  }

  lemma RestingStep(s: State, e: Cpu, act: Action, s': State, a: Addr)
    requires Enabled(s, e, act) && s' == Do(s, e, act) && AllRest(s, s')
    requires !s.cpus[e].pc.WaitFields? && !s.cpus[e].pc.WaitMark?
    ensures Undisturbed(s, s', a)
  {
    hide Do, Marking;
    if !act.Drain? { StepLocal(s, e, act); } else { DrainMovesOne(s, e, act.t); }
    forall t | t in s.threads ensures SameRest(s, s', t) {
      assert Rests(s.threads[t], s'.threads[t]);
      MarkingSame(s, s', e, t);
    }
    NobodyMoves(s, s', a);
  }

  lemma DrainMovesOne(s: State, e: Cpu, t: Tid)
    requires Enabled(s, e, Drain(t))
    ensures var s' := Do(s, e, Drain(t)); |s'.cpus| == |s.cpus| && s'.cpus == s.cpus[e := s'.cpus[e]] && !s'.cpus[e].pc.WaitFields?
  {
    hide Bucket;
  }

  lemma MarkUndisturbed(s: State, e: Cpu, a: Addr)
    requires Core(s) && Enabled(s, e, Proceed) && s.cpus[e].pc.WaitMark?
    ensures Undisturbed(s, DoMark(s, e), a)
  {
    Runner(s, e);
    var s', me := DoMark(s, e), s.cpus[e].pc.me;
    assert Marking(s', me) && s.threads[me].st != Blocked;
    forall t | t in s.threads && t != me ensures SameRest(s, s', t) { MarkingSame(s, s', e, t); }
    OneMoves(s, s', a, me);
  }

  lemma FieldsUndisturbed(s: State, e: Cpu, a: Addr)
    requires Core(s) && Enabled(s, e, Proceed) && s.cpus[e].pc.WaitFields? && Owned(s.cpus[e]) != Some(Bucket(a))
    ensures Undisturbed(s, DoFields(s, e), a)
  {
    Runner(s, e);
    var s', me := DoFields(s, e), s.cpus[e].pc.me;
    assert s.cpus[e].pc.a != a;
    assert Marking(s, me);
    forall t | t in s.threads && t != me ensures SameRest(s, s', t) { MarkingSame(s, s', e, t); }
    OneMoves(s, s', a, me);
  }

  lemma OtherStep(s: State, c: Cpu, e: Cpu, act: Action, s': State)
    requires Core(s) && c < |s.cpus| && Scanning(s.cpus[c].pc) && Enabled(s, e, act) && e != c && s' == Do(s, e, act)
    ensures Undisturbed(s, s', s.cpus[c].pc.a)
  {
    var a, pc := s.cpus[c].pc.a, s.cpus[e].pc;
    OthersWait(s, c, e);
    hide Undisturbed, AllRest, Bucket, Core;
    if act.SpawnOn? {
      assert false;
    } else if !act.Proceed? {
      EntryRests(s, e, act);
      RestingStep(s, e, act, s', a);
    } else if pc.WaitMark? {
      MarkUndisturbed(s, e, a);
    } else if pc.WaitFields? {
      FieldsUndisturbed(s, e, a);
    } else {
      ProceedRests(s, e);
      RestingStep(s, e, act, s', a);
    }
  }

  // ---- whole scans ----

  lemma OwnStep(s: State, c: Cpu, act: Action, s': State, a: Addr, count: nat, was: set<Tid>, named: set<Tid>, took: set<Tid>)
    requires Progress(s, c, a, count, was, named, took) && Enabled(s, c, act) && s' == Do(s, c, act) && c < |s'.cpus| && Scanning(s'.cpus[c].pc)
    ensures Progress(s', c, a, count, was, named, took + Roused(s, s'))
  {
    assert act.Proceed?;
    hide Progress, Roused;
    if s.cpus[c].pc.WakePush? {
      assert s' == DoWakePush(s, c);
      PushProgress(s, c, a, count, was, named, took);
    } else {
      assert s' == DoScan(s, c);
      ScanGoesOn(s, c, a, count, was, named, took);
    }
  }

  lemma ScanGoesOn(s: State, c: Cpu, a: Addr, count: nat, was: set<Tid>, named: set<Tid>, took: set<Tid>)
    requires Progress(s, c, a, count, was, named, took) && s.cpus[c].pc.WakeScan? && Scanning(DoScan(s, c).cpus[c].pc)
    ensures Progress(DoScan(s, c), c, a, count, was, named, took + Roused(s, DoScan(s, c)))
  {
    hide Roused, SleepersOn, Naming;
    assert s.cpus[c].pc.i < MAX_THREADS && s.cpus[c].pc.woken < count;
    if ScanHits(s, s.cpus[c].pc) { HitProgress(s, c, a, count, was, named, took); }
    else { MissProgress(s, c, a, count, was, named, took); }
  }

  lemma StillProgress(s: State, s': State, c: Cpu, a: Addr, count: nat, was: set<Tid>, named: set<Tid>, took: set<Tid>)
    requires Progress(s, c, a, count, was, named, took) && Undisturbed(s, s', a)
    requires Shaped(s') && c < |s'.cpus| && s'.cpus[c] == s.cpus[c]
    ensures Progress(s', c, a, count, was, named, took + Roused(s, s'))
  {
    hide SleepersOn, Naming, Roused;
    assert took + {} == took;
  }

  lemma NextProgress(s: State, s': State, c: Cpu, a: Addr, count: nat, was: set<Tid>, named: set<Tid>, took: set<Tid>)
    requires Core(s) && Next(s, s') && Shaped(s') && Progress(s, c, a, count, was, named, took)
    requires c < |s'.cpus| && Scanning(s'.cpus[c].pc)
    ensures Progress(s', c, a, count, was, named, took + Roused(s, s'))
  {
    hide Roused, SleepersOn, Naming, Undisturbed, Do, DoEnv;
    if exists e: Cpu, act: Action :: Enabled(s, e, act) && s' == Do(s, e, act) {
      var e: Cpu, act: Action :| Enabled(s, e, act) && s' == Do(s, e, act);
      if e == c {
        OwnStep(s, c, act, s', a, count, was, named, took);
      } else {
        OtherStep(s, c, e, act, s');
        OthersKeep(s, e, act, c);
        StillProgress(s, s', c, a, count, was, named, took);
      }
    } else {
      var e: Env :| s' == DoEnv(s, e);
      EnvUndisturbed(s, e, a);
      StillProgress(s, s', c, a, count, was, named, took);
    }
  }

  lemma EnvUndisturbed(s: State, e: Env, a: Addr)
    requires Shaped(s)
    ensures var s' := DoEnv(s, e); Undisturbed(s, s', a) && s'.cpus == s.cpus
  {
    var s' := DoEnv(s, e);
    forall t | t in s.threads ensures SameRest(s, s', t) {}
    NobodyMoves(s, s', a);
  }

  /** CPU c is in one and the same scan from run[i], where it has just taken THREAD_LOCK, to run[j]. */
  predicate Scans(run: seq<State>, i: nat, j: nat, c: Cpu, a: Addr, count: nat) {
    && i <= j < |run| && c < |run[i].cpus| && run[i].cpus[c].pc == WakeScan(a, count, 0, 0)
    && forall k :: i <= k <= j ==> c < |run[k].cpus| && Scanning(run[k].cpus[c].pc)
  }

  lemma {:induction false} RunProgress(run: seq<State>, i: nat, j: nat, c: Cpu, a: Addr, count: nat)
    requires Run(run) && Init(run[0]) && Scans(run, i, j, c, a, count)
    ensures Progress(run[j], c, a, count, SleepersOn(run[i], a), Naming(run[i], a), Taken(run, i, j))
    decreases j - i
  {
    hide Next, Init, SleepersOn, Naming, Roused, Core;
    if i == j {
      RunCore(run, i);
      assert SleepersOn(run[i], a) == SleepersOn(run[i], a) - {};
    } else {
      RunProgress(run, i, j - 1, c, a, count);
      RunCore(run, j - 1);
      RunCore(run, j);
      assert Next(run[j - 1], run[j - 1 + 1]);
      NextProgress(run[j - 1], run[j], c, a, count, SleepersOn(run[i], a), Naming(run[i], a), Taken(run, i, j - 1));
    }
  }

  function Min(x: nat, y: nat): nat {
    if x < y then x else y
  }

  lemma ExactNumber(was: set<Tid>, took: set<Tid>, count: nat)
    requires took <= was && |took| <= count && (|took| == count || was <= took)
    ensures |took| == Min(count, |was|)
  {
    Subset(took, was);
    if was <= took { assert took == was; }
  }

  lemma {:induction false} Subset(x: set<Tid>, y: set<Tid>)
    requires x <= y
    ensures |x| <= |y|
    decreases |x|
  {
    if x != {} {
      var t :| t in x;
      Subset(x - {t}, y - {t});
    }
  }

  /** Only its own step changes a CPU. */
  lemma OwnMove(s: State, s': State, c: Cpu) returns (act: Action)
    requires Shaped(s) && Next(s, s') && c < |s.cpus| && c < |s'.cpus| && s'.cpus[c] != s.cpus[c]
    ensures Enabled(s, c, act) && s' == Do(s, c, act)
  {
    hide Do, DoEnv;
    if exists e: Cpu, x: Action :: Enabled(s, e, x) && s' == Do(s, e, x) {
      var e: Cpu, x: Action :| Enabled(s, e, x) && s' == Do(s, e, x);
      if e != c { OthersKeep(s, e, x, c); }
      act := x;
    } else {
      var e: Env :| s' == DoEnv(s, e);
      EnvUndisturbed(s, e, 0);
    }
  }

  lemma ScanEnds(s: State, s': State, c: Cpu)
    requires Shaped(s) && Next(s, s') && c < |s.cpus| && s.cpus[c].pc.WakeScan? && c < |s'.cpus| && s'.cpus[c].pc.WakeUnlock?
    ensures s' == DoScan(s, c)
  {
    hide Next;
    var act := OwnMove(s, s', c);
    hide DoScan;
  }

  lemma EndFacts(s: State, c: Cpu, a: Addr, count: nat, was: set<Tid>, named: set<Tid>, took: set<Tid>)
    requires Inv(s) && Progress(s, c, a, count, was, named, took) && s.cpus[c].pc.WakeScan? && DoScan(s, c).cpus[c].pc.WakeUnlock?
    ensures DoScan(s, c).cpus[c].pc == WakeUnlock(a, count, |took|)
    ensures |took| <= count && (|took| == count || was <= took) && (a != 0 ==> took <= named)
    ensures took != {} ==> DoScan(s, c).pending == s.pending
  {
    hide Bucket, Insert, SleepersOn, Naming, Core, Waits;
    forall t | t in was && t !in took && s.cpus[c].pc.i >= MAX_THREADS ensures false { SleeperBelow(s, a, t); }
  }

  lemma SleeperBelow(s: State, a: Addr, t: Tid)
    requires Inv(s) && t in SleepersOn(s, a)
    ensures t < MAX_THREADS
  {
  }

  /** A wake returns the number of threads it took from Blocked.  That is at most `count`, and unless it
      is `count` nobody who slept on the word when the scan began is left asleep.  If by then every
      thread whose record names the word was asleep on it, it is exactly the smaller of `count` and the
      number asleep.  A wake that woke somebody leaves no record. */
  lemma WakeCounts(run: seq<State>, i: nat, j: nat, c: Cpu, a: Addr, count: nat)
    requires Run(run) && Init(run[0]) && Scans(run, i, j, c, a, count) && j + 1 < |run|
    requires run[j].cpus[c].pc.WakeScan? && c < |run[j + 1].cpus| && run[j + 1].cpus[c].pc.WakeUnlock?
    ensures var took, was := Taken(run, i, j), SleepersOn(run[i], a);
      && run[j + 1].cpus[c].pc == WakeUnlock(a, count, |took|)
      && |took| <= count && (|took| < count ==> was <= took) && SleepersOn(run[j], a) == was - took
      && (a != 0 ==> took <= Naming(run[i], a))
      && (a != 0 && Naming(run[i], a) <= was ==> |took| == Min(count, |was|))
      && (took != {} ==> run[j + 1].pending == run[j].pending)
  {
    hide Init, Next, SleepersOn, Naming, Inv, Core, DoScan, Taken;
    var took, was := Taken(run, i, j), SleepersOn(run[i], a);
    RunProgress(run, i, j, c, a, count);
    RunCore(run, j);
    assert Next(run[j], run[j + 1]);
    ScanEnds(run[j], run[j + 1], c);
    EndFacts(run[j], c, a, count, was, Naming(run[i], a), took);
    if a != 0 && Naming(run[i], a) <= was { ExactNumber(was, took, count); }
  }

  /** Why the number can be larger than that of the sleepers: a waiter between its two marking steps is
      Blocked while its record may still name the word of an earlier wait. */
  lemma StaleNameIsTaken(s: State, c: Cpu)
    requires Shaped(s) && c < |s.cpus| && s.cpus[c].pc.WakeScan? && s.cpus[c].pc.woken < s.cpus[c].pc.count
    requires var t := s.cpus[c].pc.i; t < MAX_THREADS && t in s.threads && Marking(s, t) && s.threads[t].st == Blocked && s.threads[t].addr == s.cpus[c].pc.a
    ensures s.cpus[c].pc.i in Roused(s, DoScan(s, c)) && s.cpus[c].pc.i !in SleepersOn(s, s.cpus[c].pc.a)
  {
  }

  // ---- the result ----

  lemma NextUnlock(s: State, s': State, c: Cpu)
    requires Next(s, s') && c < |s.cpus| && c < |s'.cpus| && s.cpus[c].pc.WakeUnlock? && s'.cpus[c].pc.WakeUnlock? && Shaped(s)
    ensures s'.cpus[c] == s.cpus[c]
  {
    hide Next;
    if s'.cpus[c] != s.cpus[c] {
      var act := OwnMove(s, s', c);
      UnlockEnds(s, c, act);
    }
  }

  lemma UnlockEnds(s: State, c: Cpu, act: Action)
    requires Enabled(s, c, act) && s.cpus[c].pc.WakeUnlock?
    ensures c < |Do(s, c, act).cpus| && Do(s, c, act).cpus[c].pc == Safe
  {
    assert act.Proceed?;
    assert Do(s, c, act) == DoWakeUnlock(s, c);
    hide Do, DoProceed, Bucket;
  }

  lemma {:induction false} RunUnlock(run: seq<State>, j: nat, k: nat, c: Cpu)
    requires Run(run) && Init(run[0]) && j <= k < |run|
    requires forall m :: j <= m <= k ==> c < |run[m].cpus| && run[m].cpus[c].pc.WakeUnlock?
    ensures run[k].cpus[c] == run[j].cpus[c]
    decreases k - j
  {
    hide Next, Init;
    if j < k {
      RunCore(run, j);
      assert Next(run[j], run[j + 1]);
      NextUnlock(run[j], run[j + 1], c);
      RunUnlock(run, j + 1, k, c);
    }
  }

  lemma UnlockReturns(s: State, c: Cpu)
    requires Inv(s) && c < |s.cpus| && s.cpus[c].pc.WakeUnlock?
    ensures RunsThread(s, c) && DoWakeUnlock(s, c).threads[s.cpus[c].who.tid].ret == s.cpus[c].pc.woken
  {
    Runner(s, c);
  }

  /** That number is what the call returns. */
  lemma WakeReturns(run: seq<State>, i: nat, j: nat, k: nat, c: Cpu, a: Addr, count: nat)
    requires Run(run) && Init(run[0]) && Scans(run, i, j, c, a, count) && j < k < |run| && run[j].cpus[c].pc.WakeScan?
    requires forall m :: j < m <= k ==> c < |run[m].cpus| && run[m].cpus[c].pc.WakeUnlock?
    ensures Shaped(run[k]) && RunsThread(run[k], c) && DoWakeUnlock(run[k], c).threads[run[k].cpus[c].who.tid].ret == |Taken(run, i, j)|
  {
    hide Init, Next, Inv, Core, DoWakeUnlock, Taken, SleepersOn, Naming;
    WakeCounts(run, i, j, c, a, count);
    RunUnlock(run, j + 1, k, c);
    RunCore(run, k);
    UnlockReturns(run[k], c);
  }
}

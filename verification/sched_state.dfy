/** The SMP futex scheduler (src/sched.rs) as a step system: any number of CPUs, up to
    MAX_THREADS threads, one step per critical section or per unlocked access that another
    CPU can observe.  A CPU's program counter says which lock guards it holds, so the locks
    themselves are plain bits, as in the kernel's spin mutexes. */
module SchedState {
  import opened Wrappers
  import opened PendingWakes

  const MAX_THREADS: nat := 32
  const FUTEX_BUCKETS: nat := 16
  const BLOCKED_RESCUE_NS: nat := 5_000_000_000
  const EAGAIN: int := -11
  const EFAULT: int := -14
  const ETIMEDOUT: int := -110

  type Tid = nat
  type Cpu = nat
  type Addr = nat

  function Bucket(a: Addr): (b: nat)
    ensures b < FUTEX_BUCKETS
  {
    (a / 4) % FUTEX_BUCKETS
  }

  datatype RunState = Ready | Running | Blocked | Dead

  /** Where a saved context continues: the instruction after its context_switch, or the
      return address planted by spawn and init. */
  datatype Resume = ResumeWait(me: Tid) | ResumeYield | ResumeChild | ResumeIdle | IdleStart | Halt

  /** A saved register file: resume point plus everything else, as one opaque value. */
  datatype Ctx = Ctx(resume: Resume, data: nat)

  /** A rescue of wait number `no`, performed at time `at`; `whole` if the waiter had finished marking
      itself. */
  datatype Rescue = Rescue(no: nat, at: nat, whole: bool)

  /** The thread control block.  The fields from `live` on are history: `live` is the register
      value the thread itself last computed, `waitNo`/`waitDeadline` number the blocking waits
      and record the caller's deadline, `rescue` is the last rescue, `owes` are the words it has
      changed and not yet woken, `ret` is the result of its last futex call. */
  datatype Thread = Thread(
    st: RunState, addr: Addr, val: nat, deadline: nat, timedOut: bool, since: nat,
    home: Cpu, ctx: Ctx,
    live: nat, waitNo: nat, waitDeadline: nat, rescue: Option<Rescue>, owes: set<Addr>, ret: int)

  /** What a CPU is physically executing.  BootLoop is an AP's hlt/yield loop before its first
      thread; Nobody is the instant between saving one context and loading the next. */
  datatype Who = Thr(tid: Tid) | IdleLoop | BootLoop | Nobody

  datatype Pc =
    | Safe                                                     // no lock held: user mode, syscall edge, idle loop
    | WaitLock(a: Addr, v: nat, dl: nat)
    | WaitCheck(a: Addr, v: nat, dl: nat)
    | WaitMark(me: Tid, a: Addr, v: nat, dl: nat)
    | WaitFields(me: Tid, a: Addr, v: nat, dl: nat)
    | WaitPick(me: Tid, b: nat)
    | WaitHand(me: Tid, b: nat, next: Option<Tid>)
    | SwitchSave(from: Who, to: Who, ret: Resume)
    | SwitchLoad(to: Who)
    | Resuming(at: Resume)
    | WaitResult(me: Tid)
    | IdleClear
    | IdlePopped(t: Tid)
    | WakeLock(a: Addr, count: nat)
    | WakeTLock(a: Addr, count: nat)
    | WakeScan(a: Addr, count: nat, i: nat, woken: nat)
    | WakePush(a: Addr, count: nat, i: nat, woken: nat)
    | WakeUnlock(a: Addr, count: nat, woken: nat)
    | RescueLock(t: Tid, b: nat)
    | RescueTLock(t: Tid, b: nat)
    | RescueCheck(t: Tid, b: nat)
    | RescuePush(t: Tid, b: nat)
    | RescueUnlock(b: nat)
    | SpawnTLock(t: Tid)
    | SpawnInstall(t: Tid)
    | SpawnPick(t: Tid)
    | SpawnPush(t: Tid, c: Cpu)
    | ExitMark(cur: Option<Tid>)

  /** `current` is CPU_QUEUES[cpu].current, `slot` is PENDING_UNLOCK_BUCKET[cpu], `data` the
      live register file, `idle` the saved idle context IDLE_CTX[cpu]. */
  datatype CpuState = CpuState(who: Who, pc: Pc, current: Option<Tid>, slot: Option<nat>, data: nat, idle: Ctx)

  datatype State = State(
    cpus: seq<CpuState>, queues: seq<seq<Tid>>, threads: map<Tid, Thread>,
    locks: seq<bool>, tlock: bool, pending: seq<seq<Addr>>, flags: set<Tid>,
    mem: map<Addr, nat>, now: nat, blocking: bool, nextTid: nat)

  predicate Shaped(s: State) {
    && |s.cpus| == |s.queues| > 0
    && |s.locks| == |s.pending| == FUTEX_BUCKETS
  }

  // ---- small updates ----

  function WithCpu(s: State, c: Cpu, k: CpuState): State
    requires Shaped(s) && c < |s.cpus|
  {
    s.(cpus := s.cpus[c := k])
  }

  function Go(s: State, c: Cpu, pc: Pc): State
    requires Shaped(s) && c < |s.cpus|
  {
    WithCpu(s, c, s.cpus[c].(pc := pc))
  }

  function WithThread(s: State, t: Tid, th: Thread): State {
    s.(threads := s.threads[t := th])
  }

  function SetLock(s: State, b: nat, bit: bool): State
    requires Shaped(s) && b < FUTEX_BUCKETS
  {
    s.(locks := s.locks[b := bit])
  }

  function Push(s: State, c: Cpu, t: Tid): State
    requires Shaped(s) && c < |s.cpus|
  {
    s.(queues := s.queues[c := s.queues[c] + [t]])
  }

  function PopFront(s: State, c: Cpu): State
    requires Shaped(s) && c < |s.cpus| && s.queues[c] != []
  {
    s.(queues := s.queues[c := s.queues[c][1..]])
  }

  function WhoOf(t: Option<Tid>): Who {
    match t case None => IdleLoop case Some(n) => Thr(n)
  }

  function FreshThread(stamp: nat): Thread {
    Thread(Ready, 0, 0, 0, false, 0, 0, Ctx(ResumeChild, stamp), stamp, 0, 0, None, {}, 0)
  }

  /** sched::init: thread 0 runs on CPU 0, every other CPU is in its boot loop. */
  predicate Init(s: State) {
    && Shaped(s)
    && s.cpus[0].who == Thr(0) && s.cpus[0].pc == Safe && s.cpus[0].current == Some(0)
    && s.threads.Keys == {0}
    && (var t := s.threads[0];
        t == FreshThread(t.live).(st := Running, ctx := t.ctx) && s.cpus[0].data == t.live)
    && (forall c :: 0 < c < |s.cpus| ==>
          s.cpus[c].who == BootLoop && s.cpus[c].pc == Safe && s.cpus[c].current == None)
    && (forall c :: 0 <= c < |s.cpus| ==> s.cpus[c].slot == None && s.cpus[c].idle.resume == IdleStart)
    && (forall c :: 0 <= c < |s.queues| ==> s.queues[c] == [])
    && (forall b :: 0 <= b < FUTEX_BUCKETS ==>
          !s.locks[b] && |s.pending[b]| == SLOTS && forall i :: 0 <= i < SLOTS ==> s.pending[b][i] == 0)
    && !s.tlock && s.flags == {} && s.nextTid == 1
  }

  // ---- the steps of one CPU ----

  datatype Action =
    | Compute(d: nat) | Store(a: Addr, v: nat)
    | CallWait(a: Addr, v: nat, dl: nat) | CallWake(a: Addr, n: nat)
    | CallSpawn | CallExit | Yield | Drain(t: Tid) | IdlePop
    | Proceed | SpawnOn(q: Cpu)

  /** Interrupt-context and outside-world steps; they belong to no CPU's program counter. */
  datatype Env = Watchdog | Tick(dt: nat) | ArmBlocking

  predicate RunsThread(s: State, c: Cpu)
    requires Shaped(s) && c < |s.cpus|
  {
    s.cpus[c].who.Thr? && s.cpus[c].who.tid in s.threads
  }

  predicate Waiting(pc: Pc) {
    pc.WaitLock? || pc.WakeLock? || pc.RescueLock? || pc.WakeTLock? || pc.RescueTLock? || pc.SpawnTLock?
  }

  /** Is the lock this program counter spins on free? */
  predicate LockFree(s: State, pc: Pc)
    requires Shaped(s) && Waiting(pc)
  {
    if pc.WaitLock? || pc.WakeLock? then !s.locks[Bucket(pc.a)]
    else if pc.RescueLock? then pc.b < FUTEX_BUCKETS && !s.locks[pc.b]
    else !s.tlock
  }

  /** Everything a step reads without checking: thread records, lock and queue indices. */
  predicate PcReady(s: State, c: Cpu)
    requires Shaped(s) && c < |s.cpus|
  {
    var k := s.cpus[c];
    && !k.pc.Safe? && !k.pc.SpawnPick?
    && (Waiting(k.pc) ==> LockFree(s, k.pc))
    && (k.pc.WaitMark? || k.pc.WaitFields? || k.pc.WaitResult? ==> k.pc.me in s.threads)
    && (k.pc.WaitPick? || k.pc.WaitHand? || k.pc.RescueUnlock? ==> k.pc.b < FUTEX_BUCKETS)
    && (k.pc.SwitchSave? ==> HasContext(s, k.pc.from))
    && (k.pc.SwitchLoad? ==> HasContext(s, k.pc.to))
    && (k.pc.Resuming? ==> !k.pc.at.Halt? && (k.slot.Some? ==> k.slot.value < FUTEX_BUCKETS))
    && (k.pc.WakePush? ==> k.pc.i in s.threads && s.threads[k.pc.i].home < |s.cpus|)
    && (k.pc.WakeUnlock? ==> RunsThread(s, c))
    && (k.pc.RescuePush? ==> k.pc.t in s.threads && s.threads[k.pc.t].home < |s.cpus|)
    && (k.pc.SpawnPush? ==> k.pc.c < |s.cpus|)
    && (k.pc.ExitMark? ==> Victim(k.pc.cur) in s.threads)
  }

  predicate HasContext(s: State, w: Who) {
    w.IdleLoop? || (w.Thr? && w.tid in s.threads)
  }

  /** thread_exit falls back to thread 0's record when the CPU has no current thread. */
  function Victim(cur: Option<Tid>): Tid {
    if cur.Some? then cur.value else 0
  }

  predicate Enabled(s: State, c: Cpu, act: Action) {
    && Shaped(s) && c < |s.cpus|
    && var k := s.cpus[c];
       if act.Proceed? then PcReady(s, c)
       else if act.SpawnOn? then k.pc.SpawnPick? && k.pc.t in s.threads && act.q < |s.cpus|
       else
         && k.pc.Safe?
         && (act.Drain? ==> act.t in s.flags)
         && (act.IdlePop? ==> k.who.IdleLoop?)
         && (act.Yield? ==> k.who.Thr? || k.who.BootLoop?)
         && (ThreadCall(act) ==> RunsThread(s, c))
         && (act.Store? ==> act.a in s.mem)
         && (act.CallWait? ==> s.nextTid > 1)
         && (act.CallExit? ==> s.threads[k.who.tid].owes == {})
  }

  predicate ThreadCall(act: Action) {
    act.Compute? || act.Store? || act.CallWait? || act.CallWake? || act.CallSpawn? || act.CallExit?
  }

  /** A user store.  Changing a word puts the thread in debt of a wake-all on it. */
  function DoStore(s: State, c: Cpu, a: Addr, v: nat): State
    requires Enabled(s, c, Store(a, v))
  {
    var t := s.cpus[c].who.tid;
    if s.mem[a] == v then s
    else WithThread(s.(mem := s.mem[a := v]), t, s.threads[t].(owes := s.threads[t].owes + {a}))
  }

  function DoSpawn(s: State, c: Cpu): State
    requires Enabled(s, c, CallSpawn)
  {
    var s1 := s.(nextTid := s.nextTid + 1);
    if s.nextTid >= MAX_THREADS then s1 else Go(s1, c, SpawnTLock(s.nextTid))
  }

  /** The queue section of yield_current. */
  function DoYield(s: State, c: Cpu): State
    requires Enabled(s, c, Yield)
  {
    var k := s.cpus[c];
    if s.queues[c] == [] then s
    else
      var next := s.queues[c][0];
      match k.current
      case None =>   // one-way start: the boot loop is not saved
        WithCpu(PopFront(s, c), c, k.(who := Nobody, current := Some(next), pc := SwitchLoad(Thr(next))))
      case Some(cur) =>
        WithCpu(Push(PopFront(s, c), c, cur), c,
                k.(current := Some(next), pc := SwitchSave(Thr(cur), Thr(next), ResumeYield)))
  }

  /** One entry of process_rescues, up to the choice of the bucket lock. */
  function DoDrain(s: State, c: Cpu, t: Tid): State
    requires Enabled(s, c, Drain(t))
  {
    var s1 := s.(flags := s.flags - {t});
    if t in s.threads && s.threads[t].st == Blocked && s.threads[t].addr != 0
    then Go(s1, c, RescueLock(t, Bucket(s.threads[t].addr)))
    else s1
  }

  function DoIdlePop(s: State, c: Cpu): State
    requires Enabled(s, c, IdlePop)
  {
    if s.queues[c] == [] then s else Go(PopFront(s, c), c, IdlePopped(s.queues[c][0]))
  }

  /** The checks of futex_wait_until under the bucket lock, in source order: the result it
      returns at once, or None when the caller has to block. */
  function WaitVerdict(s: State, k: CpuState): Option<int>
    requires Shaped(s) && k.pc.WaitCheck?
  {
    if Has(s.pending[Bucket(k.pc.a)], k.pc.a) then Some(0)
    else if k.pc.a !in s.mem then Some(EFAULT)
    else if s.mem[k.pc.a] != k.pc.v then Some(EAGAIN)
    else if !s.blocking || k.current == None then Some(0)
    else None
  }

  function DoWaitCheck(s: State, c: Cpu): State
    requires Shaped(s) && c < |s.cpus| && s.cpus[c].pc.WaitCheck?
  {
    var k := s.cpus[c];
    var b := Bucket(k.pc.a);
    var verdict := WaitVerdict(s, k);
    if verdict.Some?
    then WaitReturns(SetLock(s, b, false).(pending := s.pending[b := Consume(s.pending[b], k.pc.a)]), c, verdict.value)
    else Go(s, c, WaitMark(k.current.value, k.pc.a, k.pc.v, k.pc.dl))
  }

  function WaitReturns(s: State, c: Cpu, r: int): State
    requires Shaped(s) && c < |s.cpus|
  {
    var w := s.cpus[c].who;
    Go(if RunsThread(s, c) then WithThread(s, w.tid, s.threads[w.tid].(ret := r)) else s, c, Safe)
  }

  /** The queue section of futex_wait_until: take the next thread or go idle. */
  function DoPick(s: State, c: Cpu): State
    requires Shaped(s) && c < |s.cpus| && s.cpus[c].pc.WaitPick?
  {
    var k := s.cpus[c];
    if s.queues[c] == [] then
      WithCpu(s, c, k.(current := None, pc := WaitHand(k.pc.me, k.pc.b, None)))
    else
      var next := s.queues[c][0];
      WithCpu(PopFront(s, c), c, k.(current := Some(next), pc := WaitHand(k.pc.me, k.pc.b, Some(next))))
  }

  /** First half of context_switch: write the outgoing registers. */
  function DoSave(s: State, c: Cpu): State
    requires Shaped(s) && c < |s.cpus| && s.cpus[c].pc.SwitchSave? && PcReady(s, c)
  {
    var k := s.cpus[c];
    var saved := Ctx(k.pc.ret, k.data);
    var k1 := k.(who := Nobody, pc := SwitchLoad(k.pc.to));
    match k.pc.from
    case Thr(t) => WithThread(WithCpu(s, c, k1), t, s.threads[t].(ctx := saved))
    case _ => WithCpu(s, c, k1.(idle := saved))
  }

  /** Second half: read the incoming registers and continue there. */
  function DoLoad(s: State, c: Cpu): State
    requires Shaped(s) && c < |s.cpus| && s.cpus[c].pc.SwitchLoad? && PcReady(s, c)
  {
    var k := s.cpus[c];
    var x := if k.pc.to.Thr? then s.threads[k.pc.to.tid].ctx else k.idle;
    WithCpu(s, c, k.(who := k.pc.to, data := x.data, pc := Resuming(x.resume)))
  }

  /** release_pending_unlock at a resume point, and where control goes from there. */
  function DoRelease(s: State, c: Cpu): State
    requires Shaped(s) && c < |s.cpus| && s.cpus[c].pc.Resuming? && PcReady(s, c)
  {
    var k := s.cpus[c];
    WithCpu(if k.slot.Some? then SetLock(s, k.slot.value, false) else s, c, k.(slot := None, pc := AfterRelease(k.pc.at)))
  }

  function AfterRelease(at: Resume): Pc {
    if at.ResumeWait? then WaitResult(at.me) else if at.ResumeIdle? then IdleClear else Safe
  }

  predicate ScanHits(s: State, pc: Pc)
    requires pc.WakeScan?
  {
    && pc.i < MAX_THREADS && pc.woken < pc.count
    && pc.i in s.threads && s.threads[pc.i].st == Blocked && s.threads[pc.i].addr == pc.a
  }

  /** One index of futex_wake's scan, or its end. */
  function DoScan(s: State, c: Cpu): State
    requires Shaped(s) && c < |s.cpus| && s.cpus[c].pc.WakeScan?
  {
    var pc := s.cpus[c].pc;
    if pc.i >= MAX_THREADS || pc.woken >= pc.count then
      var b := Bucket(pc.a);
      var p := if pc.woken == 0 then s.pending[b := Insert(s.pending[b], pc.a)] else s.pending;
      Go(s.(pending := p, tlock := false), c, WakeUnlock(pc.a, pc.count, pc.woken))
    else if ScanHits(s, pc) then
      Go(WithThread(s, pc.i, s.threads[pc.i].(st := Ready, addr := 0, since := 0)),
         c, WakePush(pc.a, pc.count, pc.i, pc.woken + 1))
    else Go(s, c, WakeScan(pc.a, pc.count, pc.i + 1, pc.woken))
  }

  /** End of futex_wake: the guard drops and the number woken is the result.  A wake-all settles the
      waker's debt for the word. */
  function DoWakeUnlock(s: State, c: Cpu): State
    requires Shaped(s) && c < |s.cpus| && s.cpus[c].pc.WakeUnlock? && RunsThread(s, c)
  {
    var pc, t := s.cpus[c].pc, s.cpus[c].who.tid;
    var owes := s.threads[t].owes;
    WithThread(Go(SetLock(s, Bucket(pc.a), false), c, Safe), t,
               s.threads[t].(ret := pc.woken, owes := if pc.count >= MAX_THREADS then owes - {pc.a} else owes))
  }

  /** Between its two marking steps a waiter is Blocked but its address is not written yet. */
  predicate Marking(s: State, t: Tid)
    requires t in s.threads
  {
    var h := s.threads[t].home;
    h < |s.cpus| && s.cpus[h].pc.WaitFields? && s.cpus[h].pc.me == t
  }

  predicate CheckHits(s: State, pc: Pc)
    requires pc.RescueCheck?
  {
    pc.t in s.threads && s.threads[pc.t].st == Blocked
  }

  /** process_rescues under its locks: re-check the state, then the transition.  The bucket is
      the one read before locking; the address is not re-checked. */
  function DoRescueCheck(s: State, c: Cpu): State
    requires Shaped(s) && c < |s.cpus| && s.cpus[c].pc.RescueCheck?
  {
    var t, b := s.cpus[c].pc.t, s.cpus[c].pc.b;
    if CheckHits(s, s.cpus[c].pc) then
      var th := s.threads[t];
      var late := th.deadline != 0 && s.now >= th.deadline;
      Go(WithThread(s, t, th.(st := Ready, addr := 0, since := 0, timedOut := th.timedOut || late,
                              deadline := 0, rescue := Some(Rescue(th.waitNo, s.now, !Marking(s, t))))),
         c, RescuePush(t, b))
    else Go(s.(tlock := false), c, RescueUnlock(b))
  }

  function DoRescuePush(s: State, c: Cpu): State
    requires Shaped(s) && c < |s.cpus| && s.cpus[c].pc.RescuePush? && PcReady(s, c)
  {
    var t, b := s.cpus[c].pc.t, s.cpus[c].pc.b;
    var h := s.threads[t].home;
    Go((if t in s.queues[h] then s else Push(s, h, t)).(tlock := false), c, RescueUnlock(b))
  }

  /** thread_exit after it gave up `current`: mark dead, then switch to the idle context. */
  function DoExitMark(s: State, c: Cpu): State
    requires Shaped(s) && c < |s.cpus| && s.cpus[c].pc.ExitMark? && PcReady(s, c)
  {
    var cur := s.cpus[c].pc.cur;
    var t := Victim(cur);
    Go(if cur.Some? then WithThread(s, t, s.threads[t].(st := Dead)) else s,
       c, SwitchSave(Thr(t), IdleLoop, Halt))
  }

  function DoAcquire(s: State, c: Cpu): State
    requires Shaped(s) && c < |s.cpus| && Waiting(s.cpus[c].pc) && LockFree(s, s.cpus[c].pc)
  {
    var pc := s.cpus[c].pc;
    if pc.WaitLock? then Go(SetLock(s, Bucket(pc.a), true), c, WaitCheck(pc.a, pc.v, pc.dl))
    else if pc.WakeLock? then Go(SetLock(s, Bucket(pc.a), true), c, WakeTLock(pc.a, pc.count))
    else if pc.RescueLock? then Go(SetLock(s, pc.b, true), c, RescueTLock(pc.t, pc.b))
    else Go(s.(tlock := true), c,
            if pc.WakeTLock? then WakeScan(pc.a, pc.count, 0, 0)
            else if pc.RescueTLock? then RescueCheck(pc.t, pc.b)
            else SpawnInstall(pc.t))
  }

  /** futex_wait_until marks its thread: first the state, then the other fields. */
  function DoMark(s: State, c: Cpu): State
    requires Shaped(s) && c < |s.cpus| && s.cpus[c].pc.WaitMark? && s.cpus[c].pc.me in s.threads
  {
    var pc := s.cpus[c].pc;
    var th := s.threads[pc.me];
    Go(WithThread(s, pc.me, th.(st := Blocked, waitNo := th.waitNo + 1, waitDeadline := pc.dl, rescue := None)),
       c, WaitFields(pc.me, pc.a, pc.v, pc.dl))
  }

  function DoFields(s: State, c: Cpu): State
    requires Shaped(s) && c < |s.cpus| && s.cpus[c].pc.WaitFields? && s.cpus[c].pc.me in s.threads
  {
    var pc := s.cpus[c].pc;
    Go(WithThread(s, pc.me, s.threads[pc.me].(addr := pc.a, val := pc.v, deadline := pc.dl, timedOut := false, since := s.now)),
       c, WaitPick(pc.me, Bucket(pc.a)))
  }

  /** The guard becomes the CPU's hand-off slot. */
  function DoHand(s: State, c: Cpu): State
    requires Shaped(s) && c < |s.cpus| && s.cpus[c].pc.WaitHand?
  {
    var k := s.cpus[c];
    WithCpu(s, c, k.(slot := Some(k.pc.b), pc := SwitchSave(Thr(k.pc.me), WhoOf(k.pc.next), ResumeWait(k.pc.me))))
  }

  function DoResult(s: State, c: Cpu): State
    requires Shaped(s) && c < |s.cpus| && s.cpus[c].pc.WaitResult? && s.cpus[c].pc.me in s.threads
  {
    var me := s.cpus[c].pc.me;
    var th := s.threads[me];
    Go(WithThread(s, me, th.(ret := if th.timedOut then ETIMEDOUT else 0, timedOut := false, deadline := 0)), c, Safe)
  }

  function DoIdleClear(s: State, c: Cpu): State
    requires Shaped(s) && c < |s.cpus|
  {
    WithCpu(s, c, s.cpus[c].(current := None, pc := Safe))
  }

  function DoIdleSwitch(s: State, c: Cpu): State
    requires Shaped(s) && c < |s.cpus| && s.cpus[c].pc.IdlePopped?
  {
    var t := s.cpus[c].pc.t;
    WithCpu(s, c, s.cpus[c].(current := Some(t), pc := SwitchSave(IdleLoop, Thr(t), ResumeIdle)))
  }

  function DoWakePush(s: State, c: Cpu): State
    requires Shaped(s) && c < |s.cpus| && s.cpus[c].pc.WakePush? && PcReady(s, c)
  {
    var pc := s.cpus[c].pc;
    Go(Push(s, s.threads[pc.i].home, pc.i), c, WakeScan(pc.a, pc.count, pc.i + 1, pc.woken))
  }

  function DoInstall(s: State, c: Cpu): State
    requires Shaped(s) && c < |s.cpus| && s.cpus[c].pc.SpawnInstall?
  {
    Go(WithThread(s, s.cpus[c].pc.t, FreshThread(s.cpus[c].data)), c, SpawnPick(s.cpus[c].pc.t))
  }

  function DoSettle(s: State, c: Cpu, q: Cpu): State
    requires Enabled(s, c, SpawnOn(q))
  {
    var t := s.cpus[c].pc.t;
    Go(WithThread(s, t, s.threads[t].(home := q)), c, SpawnPush(t, q))
  }

  function DoSpawnPush(s: State, c: Cpu): State
    requires Shaped(s) && c < |s.cpus| && s.cpus[c].pc.SpawnPush? && s.cpus[c].pc.c < |s.cpus|
  {
    Go(Push(s, s.cpus[c].pc.c, s.cpus[c].pc.t).(tlock := false), c, Safe)
  }

  function DoCompute(s: State, c: Cpu, d: nat): State
    requires Enabled(s, c, Compute(d))
  {
    var t := s.cpus[c].who.tid;
    WithThread(WithCpu(s, c, s.cpus[c].(data := d)), t, s.threads[t].(live := d))
  }

  function DoExit(s: State, c: Cpu): State
    requires Enabled(s, c, CallExit)
  {
    WithCpu(s, c, s.cpus[c].(current := None, pc := ExitMark(s.cpus[c].current)))
  }

  /** The one step a CPU inside the kernel can take from its program counter. */
  function DoProceed(s: State, c: Cpu): State
    requires Enabled(s, c, Proceed)
  {
    var pc := s.cpus[c].pc;
    if Waiting(pc) then DoAcquire(s, c)
    else if pc.WaitCheck? then DoWaitCheck(s, c)
    else if pc.WaitMark? then DoMark(s, c)
    else if pc.WaitFields? then DoFields(s, c)
    else if pc.WaitPick? then DoPick(s, c)
    else if pc.WaitHand? then DoHand(s, c)
    else if pc.WaitResult? then DoResult(s, c)
    else if pc.SwitchSave? then DoSave(s, c)
    else if pc.SwitchLoad? then DoLoad(s, c)
    else if pc.Resuming? then DoRelease(s, c)
    else if pc.IdleClear? then DoIdleClear(s, c)
    else if pc.IdlePopped? then DoIdleSwitch(s, c)
    else if pc.WakeScan? then DoScan(s, c)
    else if pc.WakePush? then DoWakePush(s, c)
    else if pc.WakeUnlock? then DoWakeUnlock(s, c)
    else if pc.RescueCheck? then DoRescueCheck(s, c)
    else if pc.RescuePush? then DoRescuePush(s, c)
    else if pc.RescueUnlock? then Go(SetLock(s, pc.b, false), c, Safe)
    else if pc.SpawnInstall? then DoInstall(s, c)
    else if pc.SpawnPush? then DoSpawnPush(s, c)
    else DoExitMark(s, c)
  }

  function Do(s: State, c: Cpu, act: Action): State
    requires Enabled(s, c, act)
  {
    match act
    case Compute(d) => DoCompute(s, c, d)
    case Store(a, v) => DoStore(s, c, a, v)
    case CallWait(a, v, dl) => Go(s, c, WaitLock(a, v, dl))
    case CallWake(a, n) => Go(s, c, WakeLock(a, n))
    case CallSpawn => DoSpawn(s, c)
    case CallExit => DoExit(s, c)
    case Yield => DoYield(s, c)
    case Drain(t) => DoDrain(s, c, t)
    case IdlePop => DoIdlePop(s, c)
    case Proceed => DoProceed(s, c)
    case SpawnOn(q) => DoSettle(s, c, q)
  }

  /** watchdog_wake's condition for one thread: the word changed, the deadline passed, or an
      untimed wait has lasted BLOCKED_RESCUE_NS. */
  predicate Overdue(s: State, t: Tid) {
    && t in s.threads
    && var th := s.threads[t];
       && th.st == Blocked && th.addr != 0 && th.addr in s.mem
       && (|| s.mem[th.addr] != th.val
           || (th.deadline != 0 && s.now >= th.deadline)
           || (th.deadline == 0 && th.since != 0 && s.now >= th.since + BLOCKED_RESCUE_NS))
  }

  function DoEnv(s: State, e: Env): State {
    match e
    case Watchdog => s.(flags := s.flags + set t | t in s.threads && Overdue(s, t))
    case Tick(dt) => s.(now := s.now + dt)
    case ArmBlocking => s.(blocking := true)
  }

  /** One transition of the machine. */
  ghost predicate Next(s: State, s': State) {
    || (exists c: Cpu, act: Action :: Enabled(s, c, act) && s' == Do(s, c, act))
    || (exists e: Env :: s' == DoEnv(s, e))
  }

  /** A run: consecutive states are transitions. */
  ghost predicate Run(run: seq<State>) {
    |run| > 0 && forall i :: 0 <= i < |run| - 1 ==> Next(run[i], run[i + 1])
  }

  ghost predicate Reachable(s: State) {
    exists run :: Run(run) && Init(run[0]) && run[|run| - 1] == s
  }
}

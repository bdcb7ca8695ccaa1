/** What every reachable state of the scheduler satisfies. */
module SchedInvariant {
  import opened Wrappers
  import opened PendingWakes
  import opened SchedState
  import opened SchedTokens
  import C = SchedContexts
  import L = SchedLocks

  // ---- what a program counter holds ----

  /** The bucket lock whose live guard this code holds. */
  function GuardOf(pc: Pc): Option<nat> {
    if pc.WaitPick? || pc.WaitHand? || pc.RescueTLock? || pc.RescueCheck? || pc.RescuePush? || pc.RescueUnlock?
    then Some(pc.b)
    else if pc.WaitCheck? || pc.WaitMark? || pc.WaitFields?
            || pc.WakeTLock? || pc.WakeScan? || pc.WakePush? || pc.WakeUnlock?
    then Some(Bucket(pc.a))
    else None
  }

  /** A runnable thread this CPU is about to put on a queue. */
  function Hand(pc: Pc): Option<Tid> {
    if pc.WakePush? then Some(pc.i)
    else if pc.RescuePush? || pc.SpawnPick? || pc.SpawnPush? then Some(pc.t)
    else None
  }

  /** The thread a CPU is running or committed to run next.  A waiter stops being due on its CPU
      the moment it marks itself Blocked, although the CPU executes it until the switch. */
  function Due(k: CpuState): Option<Tid> {
    if k.pc.WaitFields? || k.pc.WaitPick? then None
    else if k.pc.WaitHand? then k.pc.next
    else if k.pc.SwitchSave? || k.pc.SwitchLoad? then ThreadOf(k.pc.to)
    else if k.pc.IdlePopped? then Some(k.pc.t)
    else ThreadOf(k.who)
  }

  function ThreadOf(w: Who): Option<Tid> {
    if w.Thr? then Some(w.tid) else None
  }

  // ---- one CPU ----

  /** No hand-off in flight, and `current` names exactly the thread being executed. */
  predicate AtRest(k: CpuState) {
    k.slot == None && k.who != Nobody && k.current == ThreadOf(k.who)
  }

  predicate Target(k: CpuState, to: Who) {
    (to.Thr? || to.IdleLoop?) && k.current == ThreadOf(to)
  }

  predicate SaveShape(k: CpuState)
    requires k.pc.SwitchSave?
  {
    var from, to, ret := k.pc.from, k.pc.to, k.pc.ret;
    && from == k.who && Target(k, to)
    && (k.slot.Some? <==> ret.ResumeWait?)
    && (|| (from.Thr? && (ret == ResumeWait(from.tid) || (ret == ResumeYield && to.Thr?) || (ret == Halt && to.IdleLoop?)))
        || (from.IdleLoop? && ret == ResumeIdle && to.Thr?))
  }

  predicate ResumeShape(k: CpuState)
    requires k.pc.Resuming?
  {
    && Target(k, k.who)
    && (k.who.Thr? ==> C.ThreadResume(k.pc.at, k.who.tid))
    && (k.who.IdleLoop? ==> k.pc.at == ResumeIdle || k.pc.at == IdleStart)
  }

  /** `current`, the hand-off slot and the executing context agree with the program counter.
      In particular the slot is occupied only from the hand-off until the next resume point. */
  predicate PcShape(k: CpuState) {
    if k.pc.SwitchSave? then SaveShape(k)
    else if k.pc.SwitchLoad? then k.who == Nobody && Target(k, k.pc.to)
    else if k.pc.Resuming? then ResumeShape(k)
    else if k.pc.WaitHand? then k.slot == None && k.who == Thr(k.pc.me) && k.current == k.pc.next
    else if k.pc.ExitMark? then k.slot == None && k.who.Thr? && k.pc.cur == Some(k.who.tid) && k.current == None
    else AtRest(k) && RestShape(k)
  }

  predicate RestShape(k: CpuState) {
    if k.pc.WaitMark? || k.pc.WaitFields? || k.pc.WaitPick? || k.pc.WaitResult? then k.who == Thr(k.pc.me)
    else if k.pc.IdleClear? || k.pc.IdlePopped? then k.who.IdleLoop?
    else k.pc.Safe? || Rescuing(k.pc) || k.who.Thr?
  }

  predicate Rescuing(pc: Pc) {
    pc.RescueLock? || pc.RescueTLock? || pc.RescueCheck? || pc.RescuePush? || pc.RescueUnlock?
  }

  predicate SpawnPending(s: State, pc: Pc) {
    && (pc.SpawnTLock? || pc.SpawnInstall? ==> pc.t !in s.threads && pc.t < s.nextTid && pc.t < MAX_THREADS)
    && (pc.SpawnPush? ==> pc.t in s.threads && s.threads[pc.t].home == pc.c)
  }

  predicate CpuOk(s: State, c: Cpu)
    requires Shaped(s) && c < |s.cpus|
  {
    var k := s.cpus[c];
    && PcShape(k)
    && (k.idle.resume == IdleStart || k.idle.resume == ResumeIdle)
    && SpawnPending(s, k.pc)
    && (k.pc.RescueLock? ==> k.pc.b < FUTEX_BUCKETS)
  }

  // ---- observations ----

  /** The bucket lock a CPU owns: through its hand-off slot or through a live guard. */
  function Owned(k: CpuState): Option<nat> {
    if k.slot.Some? then k.slot else GuardOf(k.pc)
  }

  function HoldsT(pc: Pc): Option<nat> {
    if || pc.WakeScan? || pc.WakePush? || pc.RescueCheck? || pc.RescuePush?
       || pc.SpawnInstall? || pc.SpawnPick? || pc.SpawnPush?
    then Some(0) else None
  }

  /** A thread number taken from NEXT_TID and not installed yet. */
  function Reserved(pc: Pc): Option<Tid> {
    if pc.SpawnTLock? || pc.SpawnInstall? then Some(pc.t) else None
  }

  function SeatOf(k: CpuState): Seat {
    Seat(Due(k), Hand(k.pc))
  }

  function DeskOf(k: CpuState): C.Desk {
    C.Desk(k.who, k.data, if k.pc.SwitchSave? then Some(k.pc.ret) else None,
           if k.pc.SpawnPick? || k.pc.SpawnPush? then Some(k.pc.t) else None)
  }

  function BoardOf(s: State): Board {
    Board(seq(|s.cpus|, i requires 0 <= i < |s.cpus| => SeatOf(s.cpus[i])), s.queues,
          map t | t in s.threads :: Token(s.threads[t].st, s.threads[t].home))
  }

  function OfficeOf(s: State): C.Office {
    C.Office(seq(|s.cpus|, i requires 0 <= i < |s.cpus| => DeskOf(s.cpus[i])),
             map t | t in s.threads :: C.File(s.threads[t].st, s.threads[t].home, s.threads[t].ctx, s.threads[t].live))
  }

  function BucketLocks(s: State): L.Locks {
    L.Locks(seq(|s.cpus|, i requires 0 <= i < |s.cpus| => Owned(s.cpus[i])), s.locks)
  }

  function ThreadLock(s: State): L.Locks {
    L.Locks(seq(|s.cpus|, i requires 0 <= i < |s.cpus| => HoldsT(s.cpus[i].pc)), [s.tlock])
  }

  function Reservations(s: State): seq<Option<Tid>> {
    seq(|s.cpus|, i requires 0 <= i < |s.cpus| => Reserved(s.cpus[i].pc))
  }

  predicate CpusOk(s: State)
    requires Shaped(s)
  {
    forall c :: 0 <= c < |s.cpus| ==> CpuOk(s, c)
  }

  predicate Core(s: State) {
    && Shaped(s) && CpusOk(s)
    && Tokens(BoardOf(s)) && C.Contexts(OfficeOf(s))
    && L.Exact(BucketLocks(s)) && L.Exact(ThreadLock(s)) && L.Distinct(Reservations(s))
    && (forall t :: t in s.threads ==> t < s.nextTid)
  }
}

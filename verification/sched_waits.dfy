/** Waiting, on top of the core invariant: no wake is lost, and a timeout is reported only for
    the wait it belongs to. */
module SchedWaits {
  import opened Wrappers
  import opened PendingWakes
  import opened SchedState
  import opened SchedInvariant
  import opened SchedWatch
  import opened SchedCore
  import L = SchedLocks

  // ---- observations ----

  function ClaimOf(pc: Pc): Option<Claim> {
    if pc.WaitMark? || pc.WaitFields? then Some(Claim(pc.a, pc.v)) else None
  }

  function SweepOf(pc: Pc): Option<Sweep> {
    if pc.WakeScan? && pc.count >= MAX_THREADS then Some(Sweep(pc.a, pc.i))
    else if pc.WakePush? && pc.count >= MAX_THREADS then Some(Sweep(pc.a, pc.i + 1))
    else if pc.WakeUnlock? && pc.count >= MAX_THREADS then Some(Sweep(pc.a, MAX_THREADS))
    else None
  }

  predicate Asleep(s: State, t: Tid) {
    t in s.threads && s.threads[t].st == Blocked && !Marking(s, t)
  }

  function SleepOf(s: State, t: Tid): Option<Claim> {
    if Asleep(s, t) then Some(Claim(s.threads[t].addr, s.threads[t].val)) else None
  }

  function WatchOf(s: State): Watch {
    Watch(s.mem,
          seq(MAX_THREADS, t requires 0 <= t < MAX_THREADS => SleepOf(s, t)),
          seq(MAX_THREADS, t requires 0 <= t < MAX_THREADS => if t in s.threads then s.threads[t].owes else {}),
          seq(|s.cpus|, i requires 0 <= i < |s.cpus| => ClaimOf(s.cpus[i].pc)),
          seq(|s.cpus|, i requires 0 <= i < |s.cpus| => SweepOf(s.cpus[i].pc)),
          BucketLocks(s).owned)
  }

  predicate InsidePc(pc: Pc) {
    || pc.WaitFields? || pc.WaitPick? || pc.WaitHand? || pc.WaitResult?
    || (pc.SwitchSave? && pc.ret.ResumeWait?) || (pc.Resuming? && pc.at.ResumeWait?)
  }

  /** Is the thread between marking itself Blocked and returning from futex_wait? */
  predicate Inside(s: State, t: Tid)
    requires t in s.threads
  {
    var th := s.threads[t];
    if th.home < |s.cpus| && s.cpus[th.home].who == Thr(t) then InsidePc(s.cpus[th.home].pc)
    else th.ctx.resume.ResumeWait?
  }

  /** The last rescue ended this very wait, when it was all marked and at or after its deadline. */
  predicate Expired(th: Thread) {
    && th.rescue.Some? && th.rescue.value.no == th.waitNo && th.rescue.value.whole
    && th.waitDeadline != 0 && th.waitDeadline <= th.rescue.value.at
  }

  predicate TimerOk(s: State, t: Tid)
    requires t in s.threads
  {
    var th := s.threads[t];
    && (th.timedOut ==> Expired(th) && th.rescue.value.at <= s.now)
    && (Inside(s, t) && !Marking(s, t) && Expired(th) ==> th.timedOut)
    && (Marking(s, t) && th.rescue.Some? ==> !th.rescue.value.whole)
    && (th.st == Blocked && !Marking(s, t) ==> th.deadline == th.waitDeadline)
    && (th.deadline != 0 ==> th.deadline == th.waitDeadline)
    && (!Inside(s, t) || Marking(s, t) ==> th.deadline == 0 && !th.timedOut)
    && (Marking(s, t) ==> s.cpus[th.home].pc.dl == th.waitDeadline)
  }

  predicate ScanOk(pc: Pc) {
    (pc.WakeScan? ==> pc.woken <= pc.i) && (pc.WakePush? ==> pc.woken <= pc.i + 1)
  }

  predicate Timers(s: State) {
    forall t :: t in s.threads ==> t < MAX_THREADS && TimerOk(s, t)
  }

  predicate Scans(s: State) {
    forall c :: 0 <= c < |s.cpus| ==> ScanOk(s.cpus[c].pc)
  }

  predicate Waits(s: State) {
    Watched(WatchOf(s)) && Timers(s) && Scans(s)
  }

  // ---- steps that change nothing here ----

  predicate CalmThread(x: Thread, y: Thread) {
    && (x.st == Blocked <==> y.st == Blocked) && x.home == y.home
    && x.addr == y.addr && x.val == y.val && x.deadline == y.deadline && x.timedOut == y.timedOut
    && x.waitNo == y.waitNo && x.waitDeadline == y.waitDeadline && x.rescue == y.rescue && x.owes == y.owes
  }

  predicate CalmPc(pc: Pc) {
    ClaimOf(pc) == None && !pc.WakeScan? && !pc.WakePush? && !pc.WakeUnlock?
  }

  predicate Calm(s: State, s': State, c: Cpu) {
    && Acts(s, s', c) && s'.mem == s.mem && s'.now == s.now
    && CalmPc(s.cpus[c].pc) && CalmPc(s'.cpus[c].pc)
    && s'.threads.Keys == s.threads.Keys
    && (forall t :: t in s.threads ==> CalmThread(s.threads[t], s'.threads[t]))
    && (forall t :: t in s.threads ==> Inside(s', t) == Inside(s, t))
  }

  lemma WatchViews(s: State, s': State, c: Cpu)
    requires Acts(s, s', c)
    ensures WatchOf(s').claims == WatchOf(s).claims[c := ClaimOf(s'.cpus[c].pc)]
    ensures WatchOf(s').sweeps == WatchOf(s).sweeps[c := SweepOf(s'.cpus[c].pc)]
    ensures WatchOf(s').owned == WatchOf(s).owned[c := Owned(s'.cpus[c])]
  {
  }

  lemma CalmAsleep(s: State, s': State, c: Cpu)
    requires Calm(s, s', c)
    ensures WatchOf(s').asleep == WatchOf(s).asleep && WatchOf(s').debts == WatchOf(s).debts
  {
    forall t: Tid | t < MAX_THREADS ensures SleepOf(s', t) == SleepOf(s, t) {
      if t in s.threads { assert CalmThread(s.threads[t], s'.threads[t]); }
    }
    forall t: Tid | t in s.threads ensures s'.threads[t].owes == s.threads[t].owes {
      assert CalmThread(s.threads[t], s'.threads[t]);
    }
  }

  lemma CalmWatch(s: State, s': State, c: Cpu)
    requires Watched(WatchOf(s)) && Acts(s, s', c) && s'.mem == s.mem && L.Distinct(BucketLocks(s').owned)
    requires CalmPc(s.cpus[c].pc) && CalmPc(s'.cpus[c].pc)
    requires WatchOf(s').asleep == WatchOf(s).asleep && WatchOf(s').debts == WatchOf(s).debts
    ensures Watched(WatchOf(s'))
  {
    WatchViews(s, s', c);
    Idles(WatchOf(s), c, Owned(s'.cpus[c]));
    assert WatchOf(s') == With(WatchOf(s), c, None, None, Owned(s'.cpus[c]));
  }

  lemma CalmTimers(s: State, s': State, c: Cpu)
    requires Timers(s) && Scans(s) && Calm(s, s', c)
    ensures Timers(s') && Scans(s')
  {
    forall t | t in s'.threads ensures t < MAX_THREADS && TimerOk(s', t) {
      assert TimerOk(s, t) && CalmThread(s.threads[t], s'.threads[t]);
    }
  }

  lemma CalmKeeps(s: State, s': State, c: Cpu)
    requires Waits(s) && Calm(s, s', c) && L.Distinct(BucketLocks(s').owned)
    ensures Waits(s')
  {
    CalmAsleep(s, s', c);
    CalmWatch(s, s', c);
    CalmTimers(s, s', c);
  }

  /** How the watch changes when one thread's record and CPU c change. */
  lemma WatchThread(s: State, s': State, c: Cpu, t: Tid)
    requires Acts(s, s', c) && t < MAX_THREADS && t in s'.threads && s'.threads == s.threads[t := s'.threads[t]]
    requires s.cpus[c].pc.WaitFields? ==> s.cpus[c].pc.me == t
    requires s'.cpus[c].pc.WaitFields? ==> s'.cpus[c].pc.me == t
    ensures WatchOf(s').asleep == WatchOf(s).asleep[t := SleepOf(s', t)]
    ensures WatchOf(s').debts == WatchOf(s).debts[t := s'.threads[t].owes]
  {
    forall u: Tid | u < MAX_THREADS && u != t ensures SleepOf(s', u) == SleepOf(s, u) {
      assert u in s.threads <==> u in s'.threads;
    }
  }

  /** No record changes and no marking either. */
  lemma WatchSame(s: State, s': State, c: Cpu)
    requires Acts(s, s', c) && s'.threads == s.threads && !s.cpus[c].pc.WaitFields? && !s'.cpus[c].pc.WaitFields?
    ensures WatchOf(s').asleep == WatchOf(s).asleep && WatchOf(s').debts == WatchOf(s).debts
  {
    forall u: Tid | u < MAX_THREADS ensures SleepOf(s', u) == SleepOf(s, u) {}
  }
}

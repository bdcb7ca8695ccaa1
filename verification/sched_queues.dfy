/** Run queues are first in, first out: while a thread waits in a queue nobody gets ahead of it. */
module SchedQueues {
  import opened Wrappers
  import opened PendingWakes
  import opened SchedState
  import opened SchedInvariant
  import opened SchedCore
  import opened SchedWaking
  import opened SchedPreserve
  import opened SchedOutcomes
  import T = SchedTokens

  /** A queue stays, loses its front, gains a new back, or both. */
  predicate Fifo(x: seq<Tid>, y: seq<Tid>) {
    || y == x
    || (x != [] && y == x[1..])
    || (y != [] && y[..|y| - 1] == x)
    || (x != [] && y != [] && y[..|y| - 1] == x[1..] && y[|y| - 1] !in x)
  }

  predicate AllFifo(s: State, s': State) {
    |s'.queues| == |s.queues| && forall q :: 0 <= q < |s.queues| ==> Fifo(s.queues[q], s'.queues[q])
  }

  lemma PushFifo(s: State, q: Cpu, t: Tid)
    requires Shaped(s) && q < |s.cpus|
    ensures AllFifo(s, Push(s, q, t))
  {
    assert (s.queues[q] + [t])[..|s.queues[q]|] == s.queues[q];
  }

  lemma SameFifo(s: State, s': State)
    requires s'.queues == s.queues
    ensures AllFifo(s, s')
  {
  }

  lemma CurrentNotQueued(s: State, c: Cpu)
    requires Core(s) && Enabled(s, c, Yield)
    ensures s.cpus[c].current.Some? ==> s.cpus[c].current.value !in s.queues[c]
  {
    Runner(s, c);
    if s.cpus[c].current.Some? {
      assert T.DueHome(BoardOf(s), c) && BoardOf(s).seats[c].due == s.cpus[c].current;
    }
  }

  lemma YieldFifo(s: State, c: Cpu)
    requires Core(s) && Enabled(s, c, Yield)
    ensures AllFifo(s, DoYield(s, c))
  {
    CurrentNotQueued(s, c);
    hide Core;
    var x := s.queues[c];
    if x != [] && s.cpus[c].current.Some? {
      assert (x[1..] + [s.cpus[c].current.value])[..|x| - 1] == x[1..];
    }
  }

  lemma PopsFifo(s: State, c: Cpu)
    requires Shaped(s) && c < |s.cpus|
    ensures Enabled(s, c, IdlePop) ==> AllFifo(s, DoIdlePop(s, c))
    ensures s.cpus[c].pc.WaitPick? ==> AllFifo(s, DoPick(s, c))
  {
  }

  lemma PushesFifo(s: State, c: Cpu)
    requires Enabled(s, c, Proceed)
    ensures s.cpus[c].pc.WakePush? ==> AllFifo(s, DoWakePush(s, c))
    ensures s.cpus[c].pc.RescuePush? ==> AllFifo(s, DoRescuePush(s, c))
    ensures s.cpus[c].pc.SpawnPush? ==> AllFifo(s, DoSpawnPush(s, c))
  {
    var pc := s.cpus[c].pc;
    if pc.WakePush? { PushFifo(s, s.threads[pc.i].home, pc.i); }
    if pc.RescuePush? { PushFifo(s, s.threads[pc.t].home, pc.t); }
    if pc.SpawnPush? { PushFifo(s, pc.c, pc.t); }
  }

  /** Where the queues do not change. */
  lemma EntryQueues(s: State, c: Cpu, act: Action)
    requires Enabled(s, c, act) && !act.Yield? && !act.IdlePop? && !act.Proceed?
    ensures Do(s, c, act).queues == s.queues
  {
    hide Bucket;
  }

  lemma WaitQueues(s: State, c: Cpu)
    requires Enabled(s, c, Proceed)
    ensures Waiting(s.cpus[c].pc) ==> DoAcquire(s, c).queues == s.queues
    ensures s.cpus[c].pc.WaitCheck? ==> DoWaitCheck(s, c).queues == s.queues
    ensures s.cpus[c].pc.WaitMark? ==> DoMark(s, c).queues == s.queues
    ensures s.cpus[c].pc.WaitFields? ==> DoFields(s, c).queues == s.queues
    ensures s.cpus[c].pc.WaitHand? ==> DoHand(s, c).queues == s.queues
    ensures s.cpus[c].pc.WaitResult? ==> DoResult(s, c).queues == s.queues
  {
    hide Bucket, Consume, WaitVerdict;
  }

  lemma SwitchQueues(s: State, c: Cpu)
    requires Enabled(s, c, Proceed)
    ensures s.cpus[c].pc.SwitchSave? ==> DoSave(s, c).queues == s.queues
    ensures s.cpus[c].pc.SwitchLoad? ==> DoLoad(s, c).queues == s.queues
    ensures s.cpus[c].pc.Resuming? ==> DoRelease(s, c).queues == s.queues
    ensures s.cpus[c].pc.IdleClear? ==> DoIdleClear(s, c).queues == s.queues
    ensures s.cpus[c].pc.IdlePopped? ==> DoIdleSwitch(s, c).queues == s.queues
  {
  }

  lemma EndQueues(s: State, c: Cpu)
    requires Enabled(s, c, Proceed)
    ensures s.cpus[c].pc.WakeScan? ==> DoScan(s, c).queues == s.queues
    ensures s.cpus[c].pc.WakeUnlock? ==> DoWakeUnlock(s, c).queues == s.queues
    ensures s.cpus[c].pc.RescueCheck? ==> DoRescueCheck(s, c).queues == s.queues
    ensures s.cpus[c].pc.RescueUnlock? ==> Go(SetLock(s, s.cpus[c].pc.b, false), c, Safe).queues == s.queues
    ensures s.cpus[c].pc.SpawnInstall? ==> DoInstall(s, c).queues == s.queues
    ensures s.cpus[c].pc.ExitMark? ==> DoExitMark(s, c).queues == s.queues
  {
    hide Bucket, Insert, ScanHits, CheckHits, Marking;
  }

  lemma ProceedQueues(s: State, c: Cpu)
    requires Enabled(s, c, Proceed) && !s.cpus[c].pc.WaitPick? && !s.cpus[c].pc.WakePush? && !s.cpus[c].pc.RescuePush? && !s.cpus[c].pc.SpawnPush?
    ensures DoProceed(s, c).queues == s.queues
  {
    WaitQueues(s, c);
    SwitchQueues(s, c);
    EndQueues(s, c);
    hide DoAcquire, DoWaitCheck, DoMark, DoFields, DoHand, DoResult, DoSave, DoLoad, DoRelease, DoIdleClear, DoIdleSwitch;
    hide DoScan, DoWakeUnlock, DoRescueCheck, DoInstall, DoExitMark, Go, SetLock;
  }

  lemma StepFifo(s: State, c: Cpu, act: Action)
    requires Core(s) && Enabled(s, c, act)
    ensures AllFifo(s, Do(s, c, act))
  {
    hide AllFifo, Core, DoYield, DoIdlePop, DoPick, DoWakePush, DoRescuePush, DoSpawnPush;
    var pc := s.cpus[c].pc;
    if act.Yield? { YieldFifo(s, c); }
    else if act.IdlePop? { PopsFifo(s, c); }
    else if act.Proceed? {
      if pc.WaitPick? { PopsFifo(s, c); }
      else if pc.WakePush? || pc.RescuePush? || pc.SpawnPush? { PushesFifo(s, c); }
      else { ProceedQueues(s, c); SameFifo(s, DoProceed(s, c)); }
    } else {
      EntryQueues(s, c, act);
      SameFifo(s, Do(s, c, act));
    }
  }

  lemma NextFifo(s: State, s': State, q: Cpu)
    requires Core(s) && Next(s, s') && q < |s.queues|
    ensures q < |s'.queues| && Fifo(s.queues[q], s'.queues[q]) && T.NoRepeat(s.queues[q])
  {
    assert T.QueueHome(BoardOf(s), q);
    if exists c: Cpu, act: Action :: Enabled(s, c, act) && s' == Do(s, c, act) {
      var c: Cpu, act: Action :| Enabled(s, c, act) && s' == Do(s, c, act);
      StepFifo(s, c, act);
    } else {
      var e: Env :| s' == DoEnv(s, e);
      assert s'.queues == s.queues;
    }
  }

  /** CPU c takes the front of its own queue to run next; `back` is put at the end. */
  predicate Dispatches(s: State, s': State, c: Cpu, back: seq<Tid>) {
    && c < |s.queues| && s.queues[c] != [] && c < |s'.cpus| && Due(s'.cpus[c]) == Some(s.queues[c][0])
    && s'.queues == s.queues[c := s.queues[c][1..] + back]
  }

  lemma YieldDispatches(s: State, c: Cpu)
    requires Enabled(s, c, Yield) && CpuOk(s, c) && s.queues[c] != []
    ensures Dispatches(s, DoYield(s, c), c, if s.cpus[c].who.Thr? then [s.cpus[c].who.tid] else [])
  {
    assert s.queues[c][1..] + [] == s.queues[c][1..];
  }

  lemma OthersDispatch(s: State, c: Cpu)
    requires Shaped(s) && c < |s.cpus| && s.queues[c] != []
    ensures Enabled(s, c, IdlePop) ==> Dispatches(s, DoIdlePop(s, c), c, [])
    ensures s.cpus[c].pc.WaitPick? ==> Dispatches(s, DoPick(s, c), c, [])
  {
    assert s.queues[c][1..] + [] == s.queues[c][1..];
  }

  /** Every place that picks the next thread takes the front of its CPU's own queue, if there is one: a
      yield, which puts the thread it stops at the back, the idle loop, and a wait that blocks. */
  lemma TakesFront(s: State, c: Cpu)
    requires Reachable(s) && c < |s.cpus| && c < |s.queues| && s.queues[c] != []
    ensures Enabled(s, c, Yield) ==> Dispatches(s, Do(s, c, Yield), c, if s.cpus[c].who.Thr? then [s.cpus[c].who.tid] else [])
    ensures Enabled(s, c, IdlePop) ==> Dispatches(s, Do(s, c, IdlePop), c, [])
    ensures Enabled(s, c, Proceed) && s.cpus[c].pc.WaitPick? ==> Dispatches(s, Do(s, c, Proceed), c, [])
  {
    hide Dispatches, DoYield, DoIdlePop, DoPick, CpuOk, Reachable;
    ReachableShape(s, c);
    if Enabled(s, c, Yield) { YieldDispatches(s, c); }
    OthersDispatch(s, c);
  }

  lemma ReachableShape(s: State, c: Cpu)
    requires Reachable(s) && c < |s.cpus|
    ensures Shaped(s) && CpuOk(s, c)
  {
    ReachableInv(s);
    Runner(s, c);
  }

  /** y's first m + 1 entries are the last m + 1 of x's first p + 1. */
  predicate Ahead(x: seq<Tid>, p: nat, y: seq<Tid>, m: nat) {
    m <= p < |x| && m < |y| && y[..m + 1] == x[p - m..p + 1]
  }

  lemma FrontGone(x: seq<Tid>, y: seq<Tid>)
    requires T.NoRepeat(x) && x != []
    requires y == x[1..] || (y != [] && y[..|y| - 1] == x[1..] && y[|y| - 1] !in x)
    ensures x[0] !in y
  {
    if y != x[1..] { assert y == x[1..] + [y[|y| - 1]]; }
  }

  lemma FifoAhead(x: seq<Tid>, p: nat, y: seq<Tid>) returns (m: nat)
    requires Fifo(x, y) && T.NoRepeat(x) && p < |x| && x[p] in y
    ensures Ahead(x, p, y, m) && y[m] == x[p]
  {
    if y == x || (y != [] && y[..|y| - 1] == x) {
      m := p;
      assert y[..|x|] == x;
      assert y[..m + 1] == y[..|x|][..m + 1];
    } else {
      FrontGone(x, y);
      assert p != 0;
      m := p - 1;
      assert y[..|x| - 1] == x[1..];
      assert y[..m + 1] == x[1..][..m + 1] == x[1..p + 1];
    }
  }

  lemma AheadOn(x: seq<Tid>, p: nat, y: seq<Tid>, m: nat, z: seq<Tid>, n: nat)
    requires Ahead(x, p, y, m) && Ahead(y, m, z, n)
    ensures Ahead(x, p, z, n)
  {
    assert y[m - n..m + 1] == y[..m + 1][m - n..];
    assert x[p - m..p + 1][m - n..] == x[p - n..p + 1];
  }

  /** First come, first served: as long as thread t stays in queue q, those ahead of it are the last of
      those who were, in the same order; it only moves up. */
  lemma {:induction false} FirstComeFirstServed(run: seq<State>, i: nat, j: nat, q: Cpu, p: nat) returns (m: nat)
    requires Run(run) && Init(run[0]) && i <= j < |run| && q < |run[i].queues| && p < |run[i].queues[q]|
    requires forall k :: i <= k <= j ==> q < |run[k].queues| && run[i].queues[q][p] in run[k].queues[q]
    ensures q < |run[j].queues| && Ahead(run[i].queues[q], p, run[j].queues[q], m) && run[j].queues[q][m] == run[i].queues[q][p]
    decreases j - i
  {
    hide Next, Init, Core, Fifo;
    if i == j {
      m := p;
    } else {
      var n := FirstComeFirstServed(run, i, j - 1, q, p);
      RunCore(run, j - 1);
      assert Next(run[j - 1], run[j - 1 + 1]);
      NextFifo(run[j - 1], run[j], q);
      m := FifoAhead(run[j - 1].queues[q], n, run[j].queues[q]);
      AheadOn(run[i].queues[q], p, run[j - 1].queues[q], n, run[j].queues[q], m);
    }
  }
}

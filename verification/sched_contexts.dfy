/** Register contexts.  A CPU is observed through what it executes, its registers, the resume
    point of a save in progress, and the newborn thread it holds.  The invariant says that a
    thread is executed only on its home CPU with its own registers, and that a thread nobody
    executes has exactly those registers in its saved context. */
module SchedContexts {
  import opened Wrappers
  import opened SchedState

  datatype Desk = Desk(who: Who, data: nat, leaving: Option<Resume>, newborn: Option<Tid>)

  datatype File = File(st: RunState, home: Cpu, ctx: Ctx, live: nat)

  datatype Office = Office(desks: seq<Desk>, files: map<Tid, File>)

  predicate ThreadResume(r: Resume, t: Tid) {
    r == ResumeWait(t) || r == ResumeYield || r == ResumeChild
  }

  predicate RunsHome(v: Office, c: Cpu)
    requires c < |v.desks|
  {
    var o := v.desks[c];
    o.who.Thr? ==>
      && o.who.tid in v.files && v.files[o.who.tid].home == c && o.data == v.files[o.who.tid].live
      && (o.leaving == Some(ResumeYield) ==> v.files[o.who.tid].st != Blocked)
      && (o.leaving == Some(Halt) ==> v.files[o.who.tid].st == Dead)
  }

  predicate Unstarted(v: Office, c: Cpu)
    requires c < |v.desks|
  {
    v.desks[c].newborn.Some? ==>
      && v.desks[c].newborn.value in v.files && v.files[v.desks[c].newborn.value].st == Ready
      && forall d :: 0 <= d < |v.desks| ==> v.desks[d].who != Thr(v.desks[c].newborn.value)
  }

  /** A thread no CPU executes has its own latest registers in its saved context. */
  predicate Saved(v: Office, t: Tid)
    requires t in v.files
  {
    var x := v.files[t];
    && x.home < |v.desks|
    && (x.st != Dead && v.desks[x.home].who != Thr(t) ==>
          && x.ctx.data == x.live && ThreadResume(x.ctx.resume, t)
          && (x.st == Blocked ==> x.ctx.resume == ResumeWait(t)))
  }

  predicate Contexts(v: Office) {
    && (forall c :: 0 <= c < |v.desks| ==> RunsHome(v, c))
    && (forall c :: 0 <= c < |v.desks| ==> Unstarted(v, c))
    && (forall t :: t in v.files ==> Saved(v, t))
  }

  // ---- moves ----

  function At(v: Office, c: Cpu, o: Desk): Office
    requires c < |v.desks|
  {
    v.(desks := v.desks[c := o])
  }

  function Put(v: Office, t: Tid, x: File): Office {
    v.(files := v.files[t := x])
  }

  /** A waiter marks itself Blocked. */
  lemma Marks(v: Office, c: Cpu, t: Tid)
    requires Contexts(v) && c < |v.desks|
    requires v.desks[c].who == Thr(t) && v.desks[c].leaving == None && t in v.files
    ensures Contexts(Put(v, t, v.files[t].(st := Blocked)))
  {
    var v' := Put(v, t, v.files[t].(st := Blocked));
    assert RunsHome(v, c);
    forall e | 0 <= e < |v.desks| ensures RunsHome(v', e) { assert RunsHome(v, e); }
    forall e | 0 <= e < |v.desks| ensures Unstarted(v', e) { assert Unstarted(v, e); }
    forall u | u in v'.files ensures Saved(v', u) { if u in v.files { assert Saved(v, u); } }
  }

  /** An exiting thread marks itself Dead and starts to switch away. */
  lemma Dies(v: Office, c: Cpu, t: Tid)
    requires Contexts(v) && c < |v.desks|
    requires v.desks[c].who == Thr(t) && t in v.files
    ensures Contexts(Put(At(v, c, v.desks[c].(leaving := Some(Halt))), t, v.files[t].(st := Dead)))
  {
    var v' := Put(At(v, c, v.desks[c].(leaving := Some(Halt))), t, v.files[t].(st := Dead));
    assert RunsHome(v, c);
    forall e | 0 <= e < |v.desks| ensures RunsHome(v', e) { assert RunsHome(v, e); }
    forall e | 0 <= e < |v.desks| ensures Unstarted(v', e) { assert Unstarted(v, e); }
    forall u | u in v'.files ensures Saved(v', u) { if u in v.files { assert Saved(v, u); } }
  }

  /** A waiting or yielding thread starts to switch away. */
  lemma Leaves(v: Office, c: Cpu, r: Resume)
    requires Contexts(v) && c < |v.desks|
    requires r != Halt && (r == ResumeYield && v.desks[c].who.Thr? && v.desks[c].who.tid in v.files ==> v.files[v.desks[c].who.tid].st != Blocked)
    ensures Contexts(At(v, c, v.desks[c].(leaving := Some(r))))
  {
    var v' := At(v, c, v.desks[c].(leaving := Some(r)));
    forall e | 0 <= e < |v.desks| ensures RunsHome(v', e) { assert RunsHome(v, e); }
    forall e | 0 <= e < |v.desks| ensures Unstarted(v', e) { assert Unstarted(v, e); }
    forall u | u in v'.files ensures Saved(v', u) { if u in v.files { assert Saved(v, u); } }
  }

  /** The outgoing thread's registers are written to its context. */
  lemma Saves(v: Office, c: Cpu, t: Tid, r: Resume)
    requires Contexts(v) && c < |v.desks|
    requires v.desks[c].who == Thr(t) && v.desks[c].leaving == Some(r) && t in v.files
    requires r == ResumeWait(t) || r == ResumeYield || r == Halt
    ensures Contexts(Put(At(v, c, v.desks[c].(who := Nobody, leaving := None)), t, v.files[t].(ctx := Ctx(r, v.desks[c].data))))
  {
    var v' := Put(At(v, c, v.desks[c].(who := Nobody, leaving := None)), t, v.files[t].(ctx := Ctx(r, v.desks[c].data)));
    assert RunsHome(v, c);
    forall e | 0 <= e < |v.desks| ensures RunsHome(v', e) { assert RunsHome(v, e); }
    forall e | 0 <= e < |v.desks| ensures Unstarted(v', e) { assert Unstarted(v, e); }
    forall u | u in v'.files ensures Saved(v', u) { if u in v.files { assert Saved(v, u); } }
  }

  /** The CPU moves between its loops and the switch without touching a thread. */
  lemma Passes(v: Office, c: Cpu, w: Who, x: nat)
    requires Contexts(v) && c < |v.desks|
    requires !v.desks[c].who.Thr? && !w.Thr?
    ensures Contexts(At(v, c, v.desks[c].(who := w, data := x, leaving := None)))
  {
    var v' := At(v, c, v.desks[c].(who := w, data := x, leaving := None));
    forall e | 0 <= e < |v.desks| ensures RunsHome(v', e) { assert RunsHome(v, e); }
    forall e | 0 <= e < |v.desks| ensures Unstarted(v', e) { assert Unstarted(v, e); }
    forall u | u in v'.files ensures Saved(v', u) { if u in v.files { assert Saved(v, u); } }
  }

  /** The context of a live home thread is loaded. */
  lemma Loads(v: Office, c: Cpu, t: Tid)
    requires Contexts(v) && c < |v.desks|
    requires v.desks[c].who == Nobody && v.desks[c].leaving == None && t in v.files && v.files[t].home == c && v.files[t].st != Dead
    requires forall d :: 0 <= d < |v.desks| ==> v.desks[d].newborn != Some(t)
    ensures Contexts(At(v, c, v.desks[c].(who := Thr(t), data := v.files[t].ctx.data)))
  {
    var v' := At(v, c, v.desks[c].(who := Thr(t), data := v.files[t].ctx.data));
    assert Saved(v, t);
    forall e | 0 <= e < |v.desks| ensures RunsHome(v', e) { assert RunsHome(v, e); }
    forall e | 0 <= e < |v.desks| ensures Unstarted(v', e) { assert Unstarted(v, e); }
    forall u | u in v'.files ensures Saved(v', u) { if u in v.files { assert Saved(v, u); } }
  }

  /** A waker or rescuer makes a Blocked thread Ready. */
  lemma Wakes(v: Office, c: Cpu, t: Tid)
    requires Contexts(v) && c < |v.desks|
    requires t in v.files && v.files[t].st == Blocked
    ensures Contexts(Put(v, t, v.files[t].(st := Ready)))
  {
    var v' := Put(v, t, v.files[t].(st := Ready));
    forall e | 0 <= e < |v.desks| ensures RunsHome(v', e) { assert RunsHome(v, e); }
    forall e | 0 <= e < |v.desks| ensures Unstarted(v', e) { assert Unstarted(v, e); }
    forall u | u in v'.files ensures Saved(v', u) { if u in v.files { assert Saved(v, u); } }
  }

  /** spawn installs a thread. */
  lemma Births(v: Office, c: Cpu, t: Tid, x: nat)
    requires Contexts(v) && c < |v.desks|
    requires t !in v.files
    ensures Contexts(Put(At(v, c, v.desks[c].(newborn := Some(t))), t, File(Ready, 0, Ctx(ResumeChild, x), x)))
  {
    var v' := Put(At(v, c, v.desks[c].(newborn := Some(t))), t, File(Ready, 0, Ctx(ResumeChild, x), x));
    forall e | 0 <= e < |v.desks| ensures v.desks[e].who != Thr(t) { assert RunsHome(v, e); }
    forall e | 0 <= e < |v.desks| ensures RunsHome(v', e) { assert RunsHome(v, e); }
    forall e | 0 <= e < |v.desks| ensures Unstarted(v', e) { assert Unstarted(v, e); }
    forall u | u in v'.files ensures Saved(v', u) { if u in v.files { assert Saved(v, u); } }
  }

  /** spawn chooses the newborn's home. */
  lemma Settles(v: Office, c: Cpu, t: Tid, q: Cpu)
    requires Contexts(v) && c < |v.desks|
    requires v.desks[c].newborn == Some(t) && t in v.files && q < |v.desks|
    ensures Contexts(Put(v, t, v.files[t].(home := q)))
  {
    var v' := Put(v, t, v.files[t].(home := q));
    assert Unstarted(v, c) && Saved(v, t);
    forall e | 0 <= e < |v.desks| ensures RunsHome(v', e) { assert RunsHome(v, e); }
    forall e | 0 <= e < |v.desks| ensures Unstarted(v', e) { assert Unstarted(v, e); }
    forall u | u in v'.files ensures Saved(v', u) { if u in v.files { assert Saved(v, u); } }
  }

  /** spawn lets go of the newborn. */
  lemma Releases(v: Office, c: Cpu)
    requires Contexts(v) && c < |v.desks|
    ensures Contexts(At(v, c, v.desks[c].(newborn := None)))
  {
    var v' := At(v, c, v.desks[c].(newborn := None));
    forall e | 0 <= e < |v.desks| ensures RunsHome(v', e) { assert RunsHome(v, e); }
    forall e | 0 <= e < |v.desks| ensures Unstarted(v', e) { assert Unstarted(v, e); }
    forall u | u in v'.files ensures Saved(v', u) { if u in v.files { assert Saved(v, u); } }
  }

  /** The running thread computes. */
  lemma Computes(v: Office, c: Cpu, t: Tid, x: nat)
    requires Contexts(v) && c < |v.desks|
    requires v.desks[c].who == Thr(t) && t in v.files
    ensures Contexts(Put(At(v, c, v.desks[c].(data := x)), t, v.files[t].(live := x)))
  {
    var v' := Put(At(v, c, v.desks[c].(data := x)), t, v.files[t].(live := x));
    assert RunsHome(v, c);
    forall e | 0 <= e < |v.desks| ensures RunsHome(v', e) { assert RunsHome(v, e); }
    forall e | 0 <= e < |v.desks| ensures Unstarted(v', e) { assert Unstarted(v, e); }
    forall u | u in v'.files ensures Saved(v', u) { if u in v.files { assert Saved(v, u); } }
  }
}

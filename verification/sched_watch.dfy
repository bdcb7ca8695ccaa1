/** The no-lost-wake argument, on the few facts it needs: the futex words, who sleeps on which
    word with which expected value, who still owes a wake, and for each CPU the lock it owns,
    the wait it has committed to, and how far its wake-all scan has come. */
module SchedWatch {
  import opened Wrappers
  import opened SchedState
  import L = SchedLocks

  datatype Claim = Claim(a: Addr, v: nat)
  datatype Sweep = Sweep(a: Addr, upTo: nat)

  datatype Watch = Watch(
    mem: map<Addr, nat>, asleep: seq<Option<Claim>>, debts: seq<set<Addr>>,
    claims: seq<Option<Claim>>, sweeps: seq<Option<Sweep>>, owned: seq<Option<nat>>)

  predicate Owed(v: Watch, a: Addr) {
    exists w :: 0 <= w < |v.debts| && a in v.debts[w]
  }

  /** The word still has the expected value, or somebody who changed it still owes a wake. */
  predicate Covered(v: Watch, x: Claim) {
    x.a in v.mem && (v.mem[x.a] == x.v || Owed(v, x.a))
  }

  predicate ClaimOk(v: Watch, c: Cpu)
    requires c < |v.claims| == |v.owned|
  {
    v.claims[c].Some? ==> Covered(v, v.claims[c].value) && v.owned[c] == Some(Bucket(v.claims[c].value.a))
  }

  /** Nobody asleep below the sweep's index waits for its word. */
  predicate ClearBelow(v: Watch, x: Sweep) {
    forall t :: 0 <= t < |v.asleep| && t < x.upTo && v.asleep[t].Some? ==> v.asleep[t].value.a != x.a
  }

  predicate SweepOk(v: Watch, c: Cpu)
    requires c < |v.sweeps| == |v.owned|
  {
    v.sweeps[c].Some? ==>
      && v.owned[c] == Some(Bucket(v.sweeps[c].value.a))
      && ClearBelow(v, v.sweeps[c].value)
  }

  predicate Watched(v: Watch) {
    && |v.claims| == |v.sweeps| == |v.owned| && L.Distinct(v.owned)
    && (forall t :: 0 <= t < |v.asleep| && v.asleep[t].Some? ==> Covered(v, v.asleep[t].value))
    && (forall c :: 0 <= c < |v.owned| ==> ClaimOk(v, c))
    && (forall c :: 0 <= c < |v.owned| ==> SweepOk(v, c))
  }

  function With(v: Watch, c: Cpu, claim: Option<Claim>, sweep: Option<Sweep>, own: Option<nat>): Watch
    requires c < |v.claims| == |v.sweeps| == |v.owned|
  {
    v.(claims := v.claims[c := claim], sweeps := v.sweeps[c := sweep], owned := v.owned[c := own])
  }

  lemma OwedKept(v: Watch, v': Watch, a: Addr)
    requires forall w :: 0 <= w < |v.debts| && a in v.debts[w] ==> w < |v'.debts| && a in v'.debts[w]
    ensures Owed(v, a) ==> Owed(v', a)
  {
  }

  /** A CPU without claim or sweep takes, keeps or frees a lock. */
  lemma Idles(v: Watch, c: Cpu, own: Option<nat>)
    requires Watched(v) && c < |v.owned| && v.claims[c] == None && v.sweeps[c] == None
    requires L.Distinct(v.owned[c := own])
    ensures Watched(With(v, c, None, None, own))
  {
    var v' := With(v, c, None, None, own);
    forall t | 0 <= t < |v.asleep| && v.asleep[t].Some? ensures Covered(v', v.asleep[t].value) { OwedKept(v, v', v.asleep[t].value.a); }
    forall e | 0 <= e < |v.owned| ensures ClaimOk(v', e) {
      assert ClaimOk(v, e);
      if v.claims[e].Some? { OwedKept(v, v', v.claims[e].value.a); }
    }
    forall e | 0 <= e < |v.owned| ensures SweepOk(v', e) { assert SweepOk(v, e); }
  }

  /** A thread changes a word and owes a wake for it. */
  lemma Writes(v: Watch, t: Tid, a: Addr, x: nat)
    requires Watched(v) && a in v.mem && t < |v.debts|
    ensures Watched(v.(mem := v.mem[a := x], debts := v.debts[t := v.debts[t] + {a}]))
  {
    var v' := v.(mem := v.mem[a := x], debts := v.debts[t := v.debts[t] + {a}]);
    assert a in v'.debts[t];
    assert Owed(v', a);
    forall u | 0 <= u < |v.asleep| && v.asleep[u].Some? ensures Covered(v', v.asleep[u].value) {
      assert Covered(v, v.asleep[u].value);
      OwedKept(v, v', v.asleep[u].value.a);
    }
    forall e | 0 <= e < |v.owned| ensures ClaimOk(v', e) {
      assert ClaimOk(v, e);
      if v.claims[e].Some? { OwedKept(v, v', v.claims[e].value.a); }
    }
    forall e | 0 <= e < |v.owned| ensures SweepOk(v', e) { assert SweepOk(v, e); }
  }

  /** Under the bucket lock, a CPU sees the expected value and commits to wait. */
  lemma Commits(v: Watch, c: Cpu, x: Claim)
    requires Watched(v) && c < |v.owned| && v.sweeps[c] == None
    requires x.a in v.mem && v.mem[x.a] == x.v && v.owned[c] == Some(Bucket(x.a))
    ensures Watched(With(v, c, Some(x), None, v.owned[c]))
  {
    var v' := With(v, c, Some(x), None, v.owned[c]);
    assert v'.owned == v.owned;
    forall t | 0 <= t < |v.asleep| && v.asleep[t].Some? ensures Covered(v', v.asleep[t].value) { OwedKept(v, v', v.asleep[t].value.a); }
    forall e | 0 <= e < |v.owned| ensures ClaimOk(v', e) {
      assert ClaimOk(v, e);
      if e != c && v.claims[e].Some? { OwedKept(v, v', v.claims[e].value.a); }
    }
    forall e | 0 <= e < |v.owned| ensures SweepOk(v', e) { assert SweepOk(v, e); }
  }

  /** The committed thread is asleep; its CPU keeps the lock. */
  lemma Sleeps(v: Watch, c: Cpu, t: Tid)
    requires Watched(v) && c < |v.owned| && v.claims[c].Some? && v.sweeps[c] == None && t < |v.asleep|
    ensures Watched(With(v, c, None, None, v.owned[c]).(asleep := v.asleep[t := v.claims[c]]))
  {
    var x := v.claims[c].value;
    var v' := With(v, c, None, None, v.owned[c]).(asleep := v.asleep[t := Some(x)]);
    assert v'.owned == v.owned && ClaimOk(v, c);
    forall u | 0 <= u < |v'.asleep| && v'.asleep[u].Some? ensures Covered(v', v'.asleep[u].value) { OwedKept(v, v', v'.asleep[u].value.a); }
    forall e | 0 <= e < |v.owned| ensures ClaimOk(v', e) {
      assert ClaimOk(v, e);
      if v.claims[e].Some? { OwedKept(v, v', v.claims[e].value.a); }
    }
    forall e | 0 <= e < |v.owned| ensures SweepOk(v', e) { assert SweepOk(v, e); }
  }

  /** A thread stops being asleep; a claim may be dropped with it. */
  lemma Rouses(v: Watch, c: Cpu, t: Tid)
    requires Watched(v) && c < |v.owned| && t < |v.asleep|
    ensures Watched(v.(asleep := v.asleep[t := None])) && Watched(v.(asleep := v.asleep[t := None], claims := v.claims[c := None]))
  {
    var v1 := v.(asleep := v.asleep[t := None]);
    var v2 := v1.(claims := v.claims[c := None]);
    forall a ensures Owed(v, a) ==> Owed(v1, a) && Owed(v2, a) { OwedKept(v, v1, a); OwedKept(v, v2, a); }
    forall e | 0 <= e < |v.owned| ensures ClaimOk(v1, e) && ClaimOk(v2, e) { assert ClaimOk(v, e); }
    forall e | 0 <= e < |v.owned| ensures SweepOk(v1, e) && SweepOk(v2, e) { assert SweepOk(v, e); }
  }

  /** A wake-all begins, or its scan passes the next index. */
  lemma Sweeps(v: Watch, c: Cpu, x: Sweep)
    requires Watched(v) && c < |v.owned| && v.claims[c] == None && v.owned[c] == Some(Bucket(x.a))
    requires ClearBelow(v, x)
    ensures Watched(v.(sweeps := v.sweeps[c := Some(x)]))
  {
    var v' := v.(sweeps := v.sweeps[c := Some(x)]);
    forall t | 0 <= t < |v.asleep| && v.asleep[t].Some? ensures Covered(v', v.asleep[t].value) { OwedKept(v, v', v.asleep[t].value.a); }
    forall e | 0 <= e < |v.owned| ensures ClaimOk(v', e) {
      assert ClaimOk(v, e);
      if v.claims[e].Some? { OwedKept(v, v', v.claims[e].value.a); }
    }
    forall e | 0 <= e < |v.owned| ensures SweepOk(v', e) { assert SweepOk(v, e); }
  }

  /** A finished wake-all settles the debt: nobody sleeps on the word, nobody else has claimed it. */
  lemma Settles(v: Watch, c: Cpu, t: Tid)
    requires Watched(v) && c < |v.owned| && v.claims[c] == None && v.sweeps[c].Some? && t < |v.debts|
    requires |v.asleep| <= v.sweeps[c].value.upTo
    ensures Watched(With(v, c, None, None, None).(debts := v.debts[t := v.debts[t] - {v.sweeps[c].value.a}]))
  {
    var a := v.sweeps[c].value.a;
    var v' := With(v, c, None, None, None).(debts := v.debts[t := v.debts[t] - {a}]);
    assert SweepOk(v, c);
    forall b | b != a ensures Owed(v, b) ==> Owed(v', b) { OwedKept(v, v', b); }
    forall e | 0 <= e < |v.owned| ensures ClaimOk(v', e) {
      assert ClaimOk(v, e);
      if e != c && v.claims[e].Some? { assert v.owned[e] != v.owned[c]; }
    }
    forall e | 0 <= e < |v.owned| ensures SweepOk(v', e) { assert SweepOk(v, e); }
  }

  /** A wake of a few threads ends without settling anything. */
  lemma Ends(v: Watch, c: Cpu)
    requires Watched(v) && c < |v.owned| && v.claims[c] == None
    ensures Watched(With(v, c, None, None, None))
  {
    var v' := With(v, c, None, None, None);
    forall t | 0 <= t < |v.asleep| && v.asleep[t].Some? ensures Covered(v', v.asleep[t].value) { OwedKept(v, v', v.asleep[t].value.a); }
    forall e | 0 <= e < |v.owned| ensures ClaimOk(v', e) {
      assert ClaimOk(v, e);
      if v.claims[e].Some? { OwedKept(v, v', v.claims[e].value.a); }
    }
    forall e | 0 <= e < |v.owned| ensures SweepOk(v', e) { assert SweepOk(v, e); }
  }
}

/** Exact lock ownership.  A lock is a bit; who owns it is read off the CPUs.  The invariant is
    that a set bit has exactly one owner and an owner's bit is set. */
module SchedLocks {
  import opened Wrappers
  import opened SchedState

  datatype Locks = Locks(owned: seq<Option<nat>>, bits: seq<bool>)

  /** No two CPUs claim the same number. */
  predicate Distinct(owned: seq<Option<nat>>) {
    forall c, d :: 0 <= c < d < |owned| && owned[c].Some? ==> owned[c] != owned[d]
  }

  lemma Redraws(owned: seq<Option<nat>>, c: Cpu, o: Option<nat>, unused: nat)
    requires Distinct(owned) && c < |owned| && (forall d :: 0 <= d < |owned| ==> owned[d] != Some(unused))
    requires o == owned[c] || o == None || o == Some(unused)
    ensures Distinct(owned[c := o])
  {
  }

  predicate Owners(v: Locks, b: nat) {
    exists c :: 0 <= c < |v.owned| && v.owned[c] == Some(b)
  }

  predicate Exact(v: Locks) {
    && (forall c :: 0 <= c < |v.owned| && v.owned[c].Some? ==> v.owned[c].value < |v.bits| && v.bits[v.owned[c].value])
    && Distinct(v.owned)
    && (forall b :: 0 <= b < |v.bits| && v.bits[b] ==> Owners(v, b))
  }

  function Own(v: Locks, c: Cpu, o: Option<nat>): Locks
    requires c < |v.owned|
  {
    v.(owned := v.owned[c := o])
  }

  lemma OwnersKept(v: Locks, v': Locks, b: nat)
    requires |v.owned| == |v'.owned|
    requires forall c :: 0 <= c < |v.owned| && v.owned[c] == Some(b) ==> v'.owned[c] == Some(b)
    ensures Owners(v, b) ==> Owners(v', b)
  {
  }

  lemma Acquires(v: Locks, c: Cpu, b: nat)
    requires Exact(v) && c < |v.owned| && v.owned[c] == None && b < |v.bits| && !v.bits[b]
    ensures Exact(Own(v, c, Some(b)).(bits := v.bits[b := true]))
  {
    var v' := Own(v, c, Some(b)).(bits := v.bits[b := true]);
    assert v'.owned[c] == Some(b);
    forall x | 0 <= x < |v.bits| && v'.bits[x] ensures Owners(v', x) { OwnersKept(v, v', x); }
  }

  lemma Frees(v: Locks, c: Cpu, b: nat)
    requires Exact(v) && c < |v.owned| && v.owned[c] == Some(b) && b < |v.bits|
    ensures Exact(Own(v, c, None).(bits := v.bits[b := false]))
  {
    var v' := Own(v, c, None).(bits := v.bits[b := false]);
    forall x | 0 <= x < |v.bits| && v'.bits[x] ensures Owners(v', x) { OwnersKept(v, v', x); }
  }
}

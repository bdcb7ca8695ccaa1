/** The per-bucket table of pending wakes (PENDING_WAKES in src/sched.rs): a wake that found no
    waiter leaves its address here and the next wait on that address consumes it. */
module PendingWakes {
  const SLOTS: nat := 8

  predicate Has(tbl: seq<nat>, a: nat) {
    a in tbl
  }

  function FirstAt(tbl: seq<nat>, a: nat): (i: nat)
    requires a in tbl
    ensures i < |tbl| && tbl[i] == a && a !in tbl[..i]
  {
    if tbl[0] == a then 0 else 1 + FirstAt(tbl[1..], a)
  }

  function Insert(tbl: seq<nat>, a: nat): (r: seq<nat>)
    ensures |r| == |tbl|
  {
    if a in tbl || 0 !in tbl then tbl else tbl[FirstAt(tbl, 0) := a]
  }

  function Consume(tbl: seq<nat>, a: nat): (r: seq<nat>)
    ensures |r| == |tbl|
  {
    if a in tbl then tbl[FirstAt(tbl, a) := 0] else tbl
  }

  /** No address is recorded twice. */
  predicate OneShot(tbl: seq<nat>) {
    forall i, j :: 0 <= i < j < |tbl| && tbl[i] != 0 ==> tbl[i] != tbl[j]
  }

  /** The addresses recorded. */
  ghost function Recorded(tbl: seq<nat>): set<nat> {
    set x | x in tbl && x != 0
  }

  /** A table of distinct entries has an empty slot exactly if fewer addresses are recorded than it has
      slots. */
  lemma {:induction false} RoomIff(tbl: seq<nat>)
    requires OneShot(tbl)
    ensures |Recorded(tbl)| <= |tbl| && (Has(tbl, 0) <==> |Recorded(tbl)| < |tbl|)
  {
    if tbl != [] {
      var n := |tbl| - 1;
      var rest := tbl[..n];
      RoomIff(rest);
      assert tbl == rest + [tbl[n]];
      if tbl[n] == 0 {
        assert Recorded(tbl) == Recorded(rest);
        assert Has(tbl, 0);
      } else {
        assert tbl[n] !in rest;
        assert Recorded(tbl) == Recorded(rest) + {tbl[n]};
      }
    }
  }

  /** Recording touches no other address, records this one unless eight others fill the table,
      and never records one twice. */
  lemma InsertRecords(tbl: seq<nat>, a: nat)
    requires a != 0
    ensures Has(Insert(tbl, a), a) <==> Has(tbl, a) || Has(tbl, 0)
    ensures forall x :: x != a && x != 0 ==> (Has(Insert(tbl, a), x) <==> Has(tbl, x))
    ensures OneShot(tbl) ==> OneShot(Insert(tbl, a))
  {
    var r := Insert(tbl, a);
    if a !in tbl && 0 in tbl {
      var i := FirstAt(tbl, 0);
      assert r[i] == a;
      forall x | x != a && x != 0 ensures x in r <==> x in tbl {
        if x in tbl { var k :| 0 <= k < |tbl| && tbl[k] == x; assert r[k] == x; }
      }
    }
  }

  /** A recorded wake serves one wait: consuming removes it and nothing else. */
  lemma ConsumeRemoves(tbl: seq<nat>, a: nat)
    requires OneShot(tbl) && a != 0
    ensures OneShot(Consume(tbl, a)) && !Has(Consume(tbl, a), a)
    ensures forall x :: x != a && x != 0 ==> (Has(Consume(tbl, a), x) <==> Has(tbl, x))
  {
    var r := Consume(tbl, a);
    if a in tbl {
      var i := FirstAt(tbl, a);
      forall x | x != a && x != 0 ensures x in r <==> x in tbl {
        if x in tbl { var k :| 0 <= k < |tbl| && tbl[k] == x; assert r[k] == x; }
      }
    }
  }

  lemma ConsumeKeeps(tbl: seq<nat>, a: nat, x: nat)
    requires x != a && Has(tbl, x)
    ensures Has(Consume(tbl, a), x)
  {
    var k :| 0 <= k < |tbl| && tbl[k] == x;
    assert Consume(tbl, a)[k] == x;
  }

  lemma InsertKeeps(tbl: seq<nat>, a: nat, x: nat)
    requires x != 0 && Has(tbl, x)
    ensures Has(Insert(tbl, a), x)
  {
    var k :| 0 <= k < |tbl| && tbl[k] == x;
    assert Insert(tbl, a)[k] == x;
  }

  /** Address 0 doubles as the empty mark, so a wait on it "finds" a wake exactly when the
      table has an empty slot. */
  lemma NullAddress(tbl: seq<nat>, i: nat)
    requires i < |tbl|
    ensures tbl[i] == 0 ==> Has(tbl, 0)
    ensures Has(tbl, 0) ==> Consume(tbl, 0) == tbl && Insert(tbl, 0) == tbl
  {
  }

  lemma FirstIs(tbl: seq<nat>, a: nat, i: nat)
    requires i < |tbl| && tbl[i] == a && a !in tbl[..i]
    ensures FirstAt(tbl, a) == i
  {
    var f := FirstAt(tbl, a);
    assert forall k :: 0 <= k < i ==> tbl[..i][k] == tbl[k];
    assert forall k :: 0 <= k < f ==> tbl[..f][k] == tbl[k];
  }

  /** One bucket's table, updated in place under the bucket lock. */
  class Table {
    const addrs: array<nat>

    constructor ()
      ensures fresh(addrs) && addrs.Length == SLOTS && addrs[..] == seq(SLOTS, _ => 0)
    {
      addrs := new nat[SLOTS](_ => 0);
    }

    method Record(a: nat)
      modifies addrs
      ensures addrs[..] == Insert(old(addrs[..]), a)
    {
      for i := 0 to addrs.Length
        invariant addrs[..] == old(addrs[..]) && a !in addrs[..i]
      {
        if addrs[i] == a { return; }
      }
      for i := 0 to addrs.Length
        invariant addrs[..] == old(addrs[..]) && 0 !in addrs[..i]
      {
        if addrs[i] == 0 {
          FirstIs(addrs[..], 0, i);
          addrs[i] := a;
          return;
        }
      }
    }

    method Take(a: nat) returns (found: bool)
      modifies addrs
      ensures found == Has(old(addrs[..]), a)
      ensures addrs[..] == Consume(old(addrs[..]), a)
    {
      for i := 0 to addrs.Length
        invariant addrs[..] == old(addrs[..]) && a !in addrs[..i]
      {
        if addrs[i] == a {
          FirstIs(addrs[..], a, i);
          addrs[i] := 0;
          return true;
        }
      }
      return false;
    }
  }
}

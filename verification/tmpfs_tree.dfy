/** Paths and byte budgets of the temporary file system (src/tmpfs_tree.rs). */
module TmpfsTree {
  import opened Wrappers

  type Path = string

  // ---- norm ----

  function TrimSlashes(v: Path): Path {
    if |v| > 1 && v[|v| - 1] == '/' then TrimSlashes(v[..|v| - 1]) else v
  }

  function Rooted(p: Path): Path {
    var q := if "./" <= p then p[1..] else p;
    if "/" <= q then q else "/" + q
  }

  function Norm(p: Path): Path {
    TrimSlashes(Rooted(p))
  }

  /** norm as the source computes it. */
  method Normalise(path: Path) returns (v: Path)
    ensures v == Norm(path)
  {
    var p := path;
    if "./" <= p { p := p[1..]; }
    v := if "/" <= p then p else "/" + p;
    while |v| > 1 && v[|v| - 1] == '/'
      invariant |v| >= 1 && TrimSlashes(v) == Norm(path)
      decreases |v|
    {
      v := v[..|v| - 1];
    }
  }

  predicate Normal(p: Path) {
    |p| > 0 && p[0] == '/' && (|p| > 1 ==> p[|p| - 1] != '/')
  }

  lemma {:induction false} TrimNormal(v: Path)
    requires |v| > 0 && v[0] == '/'
    ensures Normal(TrimSlashes(v))
    decreases |v|
  {
    if |v| > 1 && v[|v| - 1] == '/' { TrimNormal(v[..|v| - 1]); }
  }

  /** norm yields an absolute path without trailing slashes, and leaves such a path alone. */
  lemma NormIsNormal(p: Path)
    ensures Normal(Norm(p)) && Norm(Norm(p)) == Norm(p)
    ensures Normal(p) ==> Norm(p) == p
  {
    TrimNormal(Rooted(p));
    NormalFixed(Norm(p));
    if Normal(p) { NormalFixed(p); }
  }

  /** norm reads a path from the root whether it begins with "/", "./" or neither, and drops slashes at
      the end. */
  lemma NormMeans(p: Path)
    ensures Norm("./" + p) == Norm("/" + p)
    ensures !("/" <= p) && !("./" <= p) ==> Norm(p) == Norm("/" + p)
    ensures "/" <= p ==> Norm(p + "/") == Norm(p)
  {
    assert ("./" + p)[1..] == "/" + p;
    assert "./" <= "./" + p && "/" <= "/" + p;
    assert !("./" <= "/" + p) by { assert ("/" + p)[0] == '/'; }
    if "/" <= p {
      assert p[0] == '/' && (p + "/")[0] == '/' && (p + "/")[..|p|] == p;
      assert !("./" <= p) && !("./" <= p + "/") && "/" <= p + "/";
    }
  }

  lemma NormalFixed(p: Path)
    requires Normal(p)
    ensures Norm(p) == p
  {
    assert !("./" <= p) by { assert p[0] != "./"[0]; }
    assert "/" <= p;
  }

  // ---- parent, mounts, descendants ----

  /** The last slash at or before index n - 1. */
  function LastSlash(p: Path, n: nat): (o: Option<nat>)
    requires n <= |p|
    ensures o.Some? ==> o.value < n && p[o.value] == '/' && forall k :: o.value < k < n ==> p[k] != '/'
    ensures o == None ==> forall k :: 0 <= k < n ==> p[k] != '/'
  {
    if n == 0 then None else if p[n - 1] == '/' then Some(n - 1) else LastSlash(p, n - 1)
  }

  function Parent(p: Path): Path {
    var o := LastSlash(p, |p|);
    if o == None || o.value == 0 then "/" else p[..o.value]
  }

  predicate IsMountRoot(p: Path) {
    p == "/tmp" || p == "/dev/shm"
  }

  predicate IsMountPath(p: Path) {
    IsMountRoot(p) || "/tmp/" <= p || "/dev/shm/" <= p
  }

  /** A possibly deep descendant. */
  predicate IsUnder(key: Path, dir: Path) {
    |key| > |dir| && dir <= key && key[|dir|] == '/'
  }

  /** A mount owns its root and its descendants, and no path that merely starts alike. */
  lemma MountsOwnDescendants(p: Path)
    ensures IsMountPath(p) <==> IsMountRoot(p) || IsUnder(p, "/tmp") || IsUnder(p, "/dev/shm")
  {
    if IsUnder(p, "/tmp") { assert p[..5] == "/tmp" + [p[4]]; }
    if IsUnder(p, "/dev/shm") { assert p[..9] == "/dev/shm" + [p[8]]; }
    if "/tmp/" <= p { assert p[..5] == "/tmp/" && p[..4] == "/tmp/"[..4]; }
    if "/dev/shm/" <= p { assert p[..9] == "/dev/shm/" && p[..8] == "/dev/shm/"[..8]; }
  }

  /** A path is under its parent, and under whatever its parent is under; nothing else. */
  lemma UnderByParent(p: Path, d: Path)
    requires d != "" && d != "/"
    ensures IsUnder(p, d) <==> Parent(p) == d || IsUnder(Parent(p), d)
  {
    var o := LastSlash(p, |p|);
    if o.Some? && o.value > 0 {
      var par := p[..o.value];
      if IsUnder(p, d) {
        assert o.value >= |d|;
        assert o.value == |d| ==> par == d;
      }
      if IsUnder(par, d) { assert p[..|d|] == par[..|d|]; }
    }
  }

  // ---- the byte cap ----

  /** Bytes a file of length len grows by when n bytes are written at offset at, gap included. */
  function Growth(at: nat, len: nat, n: nat): nat {
    if at + n > len then at + n - len else 0
  }

  function GrantWrite(total: nat, cap: nat, at: nat, len: nat, count: nat): nat {
    var allowed := if total <= cap then cap - total else 0;
    var most := if at >= len then (if allowed >= at - len then allowed - (at - len) else 0)
                else (len - at) + allowed;
    if count <= most then count else most
  }

  /** grant_write is the largest write, up to count, whose growth fits in what is left of the cap. */
  lemma GrantIsLargest(total: nat, cap: nat, at: nat, len: nat, count: nat)
    requires total <= cap
    ensures var g := GrantWrite(total, cap, at, len, count);
      && g <= count
      && (g > 0 ==> total + Growth(at, len, g) <= cap)
      && forall m :: g < m <= count ==> total + Growth(at, len, m) > cap
  {
  }
}

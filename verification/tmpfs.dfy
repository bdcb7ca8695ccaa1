/** The temporary file system (src/tmpfs.rs): a flat map from normal paths to nodes, a running total of
    file bytes capped at CAP, and an open-file table. */
module Tmpfs {
  import opened Wrappers
  import opened TmpfsTree

  const CAP: nat := 4 * 1024 * 1024
  const U64: nat := 0x1_0000_0000_0000_0000
  const TMPFS_FD_BASE: nat := 4000
  const MAX_OPEN: nat := 256
  /** isize::MAX, the most bytes a vector can hold. */
  const MAX_VEC: nat := 0x7FFF_FFFF_FFFF_FFFF

  const EPERM: int := -1
  const ENOENT: int := -2
  const EBADF: int := -9
  const EFAULT: int := -14
  const EEXIST: int := -17
  const ENOTDIR: int := -20
  const EISDIR: int := -21
  const EINVAL: int := -22
  const EMFILE: int := -24
  const ENOSPC: int := -28
  const ENOTEMPTY: int := -39

  type Byte = x: int | 0 <= x < 256

  datatype Node = Node(isDir: bool, data: seq<Byte>, mode: nat)
  datatype OpenFd = OpenFd(fd: nat, path: Path, pos: nat, append: bool, writable: bool, isDir: bool)

  /** The open flags and access mode that matter here. */
  datatype Flags = Flags(write: bool, creat: bool, excl: bool, trunc: bool, append: bool, directory: bool)

  type Nodes = map<Path, Node>

  // ---- the total ----

  ghost function Bytes(m: Nodes): nat
    decreases |m|
  {
    if m == map[] then 0
    else
      var k :| k in m;
      |m[k].data| + Bytes(m - {k})
  }

  /** The sum does not depend on the order of summation. */
  lemma {:induction false} BytesWithout(m: Nodes, k: Path)
    requires k in m
    ensures Bytes(m) == |m[k].data| + Bytes(m - {k})
    decreases |m|
  {
    var j :| j in m && Bytes(m) == |m[j].data| + Bytes(m - {j});
    if j != k {
      BytesWithout(m - {j}, k);
      BytesWithout(m - {k}, j);
      assert m - {j} - {k} == m - {k} - {j};
    }
  }

  lemma BytesPut(m: Nodes, k: Path, n: Node)
    ensures Bytes(m[k := n]) == Bytes(m - {k}) + |n.data|
  {
    BytesWithout(m[k := n], k);
    assert m[k := n] - {k} == m - {k};
  }

  // ---- the tree ----

  predicate IsDirAt(m: Nodes, p: Path) {
    p in m && m[p].isDir
  }

  /** Every node but a mount root has an existing directory as its parent. */
  predicate Tree(m: Nodes) {
    forall p :: p in m ==> IsMountRoot(p) || IsDirAt(m, Parent(p))
  }

  predicate HasChildren(m: Nodes, dir: Path) {
    exists k :: k in m && IsUnder(k, dir)
  }

  /** Nodes are normal paths, never above a mount root; directories hold no bytes, mount roots are
      directories. */
  predicate Tidy(m: Nodes) {
    && "/" !in m && "/dev" !in m
    && forall p :: p in m ==> Normal(p) && (m[p].isDir ==> m[p].data == []) && (IsMountRoot(p) ==> m[p].isDir)
  }

  /** The mount roots present. */
  function Roots(m: Nodes): set<Path> {
    set p | p in m && IsMountRoot(p)
  }

  /** The total is the sum of the file lengths and within the cap. */
  ghost predicate Counted(m: Nodes, total: nat) {
    total == Bytes(m) <= 4_194_304
  }

  lemma AddKeepsTree(m: Nodes, p: Path, n: Node)
    requires Tree(m) && p !in m && IsDirAt(m, Parent(p))
    ensures Tree(m[p := n])
  {
  }

  lemma ReplaceKeepsTree(m: Nodes, p: Path, n: Node)
    requires Tree(m) && p in m && n.isDir == m[p].isDir
    ensures Tree(m[p := n])
  {
  }

  /** Removing a node nobody is under keeps the tree. */
  lemma RemoveKeepsTree(m: Nodes, p: Path)
    requires Tree(m) && p in m && p != "" && p != "/" && !HasChildren(m, p)
    ensures Tree(m - {p})
  {
    forall q | q in m - {p} ensures IsMountRoot(q) || IsDirAt(m - {p}, Parent(q)) {
      UnderByParent(q, p);
    }
  }

  /** Neither mount root lies below another node. */
  lemma RootsOnTop(m: Nodes, p: Path)
    requires Tree(m) && Tidy(m) && p in m
    ensures !IsUnder("/tmp", p) && !IsUnder("/dev/shm", p)
  {
    LiteralParents();
    assert p != "/dev" && "/dev/shm"[..4] == "/dev";
  }

  /** A file has no descendants in a tree. */
  lemma {:induction false} FilesAreLeaves(m: Nodes, p: Path, k: Path)
    requires Tree(m) && Tidy(m) && p in m && !m[p].isDir && k in m
    ensures !IsUnder(k, p)
    decreases |k|
  {
    RootsOnTop(m, p);
    if IsUnder(k, p) {
      UnderByParent(k, p);
      if Parent(k) != p {
        FilesAreLeaves(m, p, Parent(k));
      }
    }
  }

  // ---- file contents ----

  /** The contents after src was written at offset `at`; a gap beyond the old end is zero-filled. */
  predicate Written(data: seq<Byte>, at: nat, src: seq<Byte>, data': seq<Byte>) {
    && |data'| == (if at + |src| > |data| then at + |src| else |data|)
    && forall k :: 0 <= k < |data'| ==>
         data'[k] == if at <= k < at + |src| then src[k - at] else if k < |data| then data[k] else 0
  }

  function Resized(data: seq<Byte>, len: nat): seq<Byte> {
    if len <= |data| then data[..len] else data + seq(len - |data|, _ => 0)
  }

  /** The first len bytes, with zeros where there are none. */
  predicate CutOrZeroed(data: seq<Byte>, len: nat, data': seq<Byte>) {
    |data'| == len && forall k :: 0 <= k < len ==> data'[k] == if k < |data| then data[k] else 0
  }

  lemma ResizedIs(data: seq<Byte>, len: nat)
    ensures CutOrZeroed(data, len, Resized(data, len))
  {
  }

  /** What read_at delivers. */
  function ReadAt(data: seq<Byte>, at: nat, count: nat): seq<Byte> {
    if at >= |data| then []
    else if count < |data| - at then data[at..at + count]
    else data[at..]
  }

  /** A read delivers as many bytes as were asked for and are there, each from its place. */
  lemma ReadsWhatIsThere(data: seq<Byte>, at: nat, count: nat)
    ensures var r := ReadAt(data, at, count);
      && |r| <= count && at + |r| <= (if at < |data| then |data| else at)
      && (|r| < count ==> at + |r| >= |data|)
      && forall k :: 0 <= k < |r| ==> at + k < |data| && r[k] == data[at + k]
  {
  }

  /** Reading back what was written yields it; the rest of the file is as before. */
  lemma ReadBack(data: seq<Byte>, at: nat, src: seq<Byte>, data': seq<Byte>)
    requires Written(data, at, src, data') && src != []
    ensures ReadAt(data', at, |src|) == src
    ensures forall k :: 0 <= k < |data| && !(at <= k < at + |src|) ==> data'[k] == data[k]
  {
    assert data'[at..at + |src|] == src;
  }

  /** The contents extended with zeros to length end, if they are shorter. */
  function Grown(data: seq<Byte>, end: nat): seq<Byte> {
    Resized(data, if end > |data| then end else |data|)
  }

  lemma Spliced(data: seq<Byte>, at: nat, src: seq<Byte>, grown: seq<Byte>, data': seq<Byte>)
    requires grown == Grown(data, at + |src|)
    requires data' == grown[..at] + src + grown[at + |src|..]
    ensures Written(data, at, src, data') && |data'| == |grown|
  {
  }

  lemma LiteralParents()
    ensures Parent("/") == "/" && Parent("/tmp") == "/" && Parent("/dev") == "/" && Parent("/dev/shm") == "/dev"
  {
    assert LastSlash("/", 1) == Some(0) && LastSlash("/tmp", 4) == Some(0) && LastSlash("/dev", 4) == Some(0);
    assert LastSlash("/dev/shm", 8) == Some(4) && "/dev/shm"[..4] == "/dev";
  }

  /** The root and the mount roots have no directory above them, so they are never created again. */
  lemma NothingAboveRoots(m: Nodes, p: Path)
    requires Tidy(m) && IsDirAt(m, Parent(p))
    ensures p != "/" && p != "/dev" && !IsMountRoot(p)
  {
    hide Parent;
    hide Normal;
    LiteralParents();
  }

  /** A node put under an existing directory keeps everything in order. */
  lemma Grafted(m: Nodes, total: nat, p: Path, n: Node)
    requires Tidy(m) && Counted(m, total) && p !in m && Normal(p) && IsDirAt(m, Parent(p)) && n.data == []
    ensures Tidy(m[p := n]) && Counted(m[p := n], total) && Roots(m[p := n]) == Roots(m)
    ensures Tree(m) ==> Tree(m[p := n])
  {
    hide Parent;
    hide Normal;
    NothingAboveRoots(m, p);
    if Tree(m) { AddKeepsTree(m, p, n); }
    BytesPut(m, p, n);
    assert m - {p} == m;
  }

  /** New contents for a file, with the difference booked, keep everything in order. */
  lemma Rewritten(m: Nodes, total: nat, p: Path, data: seq<Byte>)
    requires Tidy(m) && Counted(m, total) && p in m && !m[p].isDir && total + |data| <= CAP + |m[p].data|
    ensures var m' := m[p := m[p].(data := data)];
      && |m[p].data| <= total && Counted(m', total - |m[p].data| + |data|)
      && Tidy(m') && Roots(m') == Roots(m) && (Tree(m) ==> Tree(m'))
  {
    hide Normal, Parent, IsMountRoot;
    BytesWithout(m, p);
    BytesPut(m, p, m[p].(data := data));
    if Tree(m) { ReplaceKeepsTree(m, p, m[p].(data := data)); }
  }

  // ---- rename ----

  lemma NoChildren(m: Nodes, p: Path)
    requires Tree(m) && Tidy(m) && p in m && (m[p].isDir ==> !HasChildren(m, p))
    ensures !HasChildren(m, p)
  {
    if !m[p].isDir {
      forall k | k in m ensures !IsUnder(k, p) { FilesAreLeaves(m, p, k); }
    }
  }

  lemma NotItself(p: Path)
    ensures Normal(p) && p != "/" ==> Parent(p) != p
  {
  }

  lemma MovedTotal(m: Nodes, total: nat, o: Path, w: Path)
    requires Counted(m, total) && o in m && w !in m && o != w
    ensures Counted((m - {o})[w := m[o]], total)
  {
    BytesWithout(m, o);
    BytesPut(m - {o}, w, m[o]);
    assert m - {o} - {w} == m - {o};
  }

  lemma MovedTidy(m: Nodes, o: Path, w: Path)
    requires Tidy(m) && o in m && w !in m && Normal(w) && IsDirAt(m, Parent(w))
    ensures Tidy((m - {o})[w := m[o]]) && Roots((m - {o})[w := m[o]]) == Roots(m) - {o}
  {
    hide Parent, Normal;
    NothingAboveRoots(m, w);
  }

  /** Moving a node without children to a free place below an existing directory: the result is a
      tree exactly when the place is not below the node itself. */
  lemma MovedTree(m: Nodes, o: Path, w: Path)
    requires Tidy(m) && Tree(m) && o in m && w !in m && Normal(w) && IsDirAt(m, Parent(w)) && !HasChildren(m, o)
    ensures Tree((m - {o})[w := m[o]]) <==> !IsUnder(w, o)
  {
    hide Parent;
    var m' := (m - {o})[w := m[o]];
    NothingAboveRoots(m, w);
    UnderByParent(w, o);
    assert IsUnder(w, o) <==> Parent(w) == o;
    forall q | q in m && q != o ensures IsMountRoot(q) || IsDirAt(m', Parent(q)) { UnderByParent(q, o); }
    if Parent(w) == o { assert !IsDirAt(m', Parent(w)); }
  }

  /** A concrete failure: moving the empty directory /tmp/a to /tmp/a/b leaves /tmp/a/b without a
      parent. */
  lemma MovedBeneathItself(d: Node)
    requires d.isDir
    ensures var m := map["/tmp" := d, "/tmp/a" := d];
      Tree(m) && !HasChildren(m, "/tmp/a") && !Tree((m - {"/tmp/a"})["/tmp/a/b" := d])
  {
    var m := map["/tmp" := d, "/tmp/a" := d];
    assert LastSlash("/tmp/a", 6) == Some(4) && "/tmp/a"[..4] == "/tmp";
    assert LastSlash("/tmp/a/b", 8) == Some(6) && "/tmp/a/b"[..6] == "/tmp/a";
    assert "/tmp/a/b" in (m - {"/tmp/a"})["/tmp/a/b" := d];
  }

  /** What a caller can see before a rename of normal paths that takes place: a destination, if any,
      is of the same kind and has no children, and once it is gone the source has none either. */
  predicate Moves(m: Nodes, o: Path, w: Path) {
    && o != w && o in m && IsDirAt(m, Parent(w))
    && (w in m ==> m[w].isDir == m[o].isDir && !(m[w].isDir && HasChildren(m, w)))
    && !(m[o].isDir && HasChildren(m - {w}, o))
  }

  /** A concrete failure: rename moves the empty mount root /tmp away, and after that neither it nor
      anything directly in it has a parent to be created under. */
  lemma RootMovedAway(d: Node)
    requires d == Node(true, [], 0x1FF)
    ensures var m := map["/tmp" := d, "/dev/shm" := d];
      && Tidy(m) && Tree(m) && Moves(m, "/tmp", "/dev/shm/x")
      && var m' := (m - {"/tmp"})["/dev/shm/x" := d];
         && Tree(m') && Roots(m') == {"/dev/shm"} && Parent("/tmp") !in m'
         && forall p :: Parent(p) == "/tmp" ==> Parent(p) !in m'
  {
    LiteralParents();
    assert LastSlash("/dev/shm/x", 10) == Some(8) && "/dev/shm/x"[..8] == "/dev/shm";
    var m := map["/tmp" := d, "/dev/shm" := d];
    assert !HasChildren(m - {"/dev/shm/x"}, "/tmp");
    var m' := (m - {"/tmp"})["/dev/shm/x" := d];
    assert m'.Keys == {"/dev/shm", "/dev/shm/x"};
    assert Roots(m') == {"/dev/shm"};
  }

  /** The permission bits of a new node. */
  function Perm(mode: nat, otherwise: nat): nat {
    if mode % 0x1000 == 0 then otherwise else mode % 0x1000
  }

  class Fs {
    var nodes: Nodes
    var total: nat
    var open: seq<OpenFd>
    var nextFd: nat

    ghost predicate Valid()
      reads this
    {
      && Tidy(nodes) && Counted(nodes, total)
      && |open| <= MAX_OPEN && TMPFS_FD_BASE <= nextFd
      && (forall i :: 0 <= i < |open| ==> open[i].fd < nextFd)
      && (forall i, j :: 0 <= i < j < |open| ==> open[i].fd != open[j].fd)
    }

    constructor ()
      ensures Valid() && Tree(nodes) && nodes.Keys == {"/tmp", "/dev/shm"} && open == [] && total == 0
    {
      nodes := map["/tmp" := Node(true, [], 0x1FF), "/dev/shm" := Node(true, [], 0x1FF)];
      total, open, nextFd := 0, [], TMPFS_FD_BASE;
      new;
      TwoRoots(nodes);
    }

    /** Adds an entry to the open-file table under a fresh number. */
    method Install(o: OpenFd) returns (fd: nat)
      requires Valid() && |open| < MAX_OPEN
      modifies this`open, this`nextFd
      ensures Valid() && fd == old(nextFd) && open == old(open) + [o.(fd := fd)] && nextFd == fd + 1
    {
      fd := nextFd;
      nextFd := nextFd + 1;
      open := open + [o.(fd := fd)];
    }

    method Open(path: Path, f: Flags, mode: nat) returns (r: int)
      requires Valid()
      modifies this
      ensures Valid() && (old(Tree(nodes)) ==> Tree(nodes)) && Roots(nodes) == Roots(old(nodes))
      ensures var n, m, fd := Norm(path), old(nodes), old(nextFd);
        if |old(open)| >= 256 then r == EMFILE && nodes == m && open == old(open)
        else if n in m then
          if f.creat && f.excl then r == EEXIST && nodes == m && open == old(open)
          else if m[n].isDir then
            && nodes == m
            && (if f.write then r == EISDIR && open == old(open)
                else r == fd && open == old(open) + [OpenFd(fd, n, 0, false, false, true)])
          else if f.directory then r == ENOTDIR && nodes == m && open == old(open)
          else
            var data := if f.trunc && f.write then [] else m[n].data;
            && r == fd && nodes == m[n := m[n].(data := data)]
            && open == old(open) + [OpenFd(fd, n, if f.append then |data| else 0, f.append, f.write, false)]
        else if !f.creat || f.directory || Parent(n) !in m then r == ENOENT && nodes == m && open == old(open)
        else if !m[Parent(n)].isDir then r == ENOTDIR && nodes == m && open == old(open)
        else
          && r == fd && nodes == m[n := Node(false, [], if mode % 0x1000 == 0 then 0x1A4 else mode % 0x1000)]
          && open == old(open) + [OpenFd(fd, n, 0, false, true, false)]
    {
      hide Tidy, Tree, Counted, Roots, Parent, Normal;
      var n := Normalise(path);
      NormIsNormal(path);
      if |open| >= MAX_OPEN { return EMFILE; }
      if n in nodes {
        if f.creat && f.excl { return EEXIST; }
        if nodes[n].isDir {
          if f.write { return EISDIR; }
          r := Install(OpenFd(0, n, 0, false, false, true));
          return;
        }
        if f.directory { return ENOTDIR; }
        assert nodes == nodes[n := nodes[n].(data := nodes[n].data)];
        if f.trunc && f.write { Clear(n); }
        r := Install(OpenFd(0, n, if f.append then |nodes[n].data| else 0, f.append, f.write, false));
      } else {
        if !f.creat || f.directory { return ENOENT; }
        if Parent(n) !in nodes { return ENOENT; }
        if !nodes[Parent(n)].isDir { return ENOTDIR; }
        Create(n, Node(false, [], Perm(mode, 0x1A4)));
        r := Install(OpenFd(0, n, 0, false, true, false));
      }
    }

    method Clear(p: Path)
      requires Valid() && p in nodes && !nodes[p].isDir
      modifies this`nodes, this`total
      ensures Valid() && nodes == old(nodes)[p := old(nodes)[p].(data := [])]
      ensures (old(Tree(nodes)) ==> Tree(nodes)) && Roots(nodes) == Roots(old(nodes))
    {
      Replace(p, []);
    }

    /** Puts a new, empty node under an existing directory. */
    method Create(p: Path, n: Node)
      requires Valid() && p !in nodes && Normal(p) && IsDirAt(nodes, Parent(p)) && n.data == []
      modifies this`nodes
      ensures Valid() && nodes == old(nodes)[p := n]
      ensures (old(Tree(nodes)) ==> Tree(nodes)) && Roots(nodes) == Roots(old(nodes))
    {
      hide Tidy, Tree, Counted, Normal, Parent, Roots;
      Grafted(nodes, total, p, n);
      nodes := nodes[p := n];
    }

    /** Gives a file new contents and books the difference. */
    method Replace(p: Path, data: seq<Byte>)
      requires Valid() && p in nodes && !nodes[p].isDir && total + |data| <= CAP + |nodes[p].data|
      modifies this`nodes, this`total
      ensures Valid() && nodes == old(nodes)[p := old(nodes)[p].(data := data)] && total + |old(nodes)[p].data| == old(total) + |data|
      ensures (old(Tree(nodes)) ==> Tree(nodes)) && Roots(nodes) == Roots(old(nodes))
    {
      Rewritten(nodes, total, p, data);
      hide Tidy, Tree, Roots;
      total := total - |nodes[p].data| + |data|;
      nodes := nodes[p := nodes[p].(data := data)];
    }

    /** write_at: as many bytes as the cap allows, zero-filling a gap; ENOSPC when none fit. */
    method WriteAt(path: Path, at: nat, src: seq<Byte>, readable: bool) returns (r: int)
      requires Valid()
      modifies this`nodes, this`total
      ensures Valid() && (old(Tree(nodes)) ==> Tree(nodes)) && Roots(nodes) == Roots(old(nodes))
      ensures var m, n := old(nodes), if path in old(nodes) then GrantWrite(old(total), 4_194_304, at, |old(nodes)[path].data|, |src|) else 0;
        if path !in m then r == ENOENT && nodes == m
        else if m[path].isDir then r == EISDIR && nodes == m
        else if src == [] then r == 0 && nodes == m
        else if n == 0 then r == ENOSPC && nodes == m
        else
          && path in nodes && nodes == m[path := m[path].(data := nodes[path].data)]
          && (if readable then r == n && Written(m[path].data, at, src[..n], nodes[path].data)
              else r == EFAULT && Written(m[path].data, at + n, [], nodes[path].data))
    {
      hide Tidy, Tree, Written, Grown, Roots;
      if path !in nodes { return ENOENT; }
      var node := nodes[path];
      if node.isDir { return EISDIR; }
      if src == [] { return 0; }
      var n := GrantWrite(total, CAP, at, |node.data|, |src|);
      GrantIsLargest(total, CAP, at, |node.data|, |src|);
      if n == 0 { return ENOSPC; }
      r := Splice(path, at, src[..n], readable);
    }

    /** The part of write_at after the grant. */
    method Splice(path: Path, at: nat, src: seq<Byte>, readable: bool) returns (r: int)
      requires Valid() && path in nodes && !nodes[path].isDir && total + Growth(at, |nodes[path].data|, |src|) <= CAP
      modifies this`nodes, this`total
      ensures Valid() && path in nodes && (old(Tree(nodes)) ==> Tree(nodes)) && Roots(nodes) == Roots(old(nodes))
      ensures nodes == old(nodes)[path := old(nodes)[path].(data := nodes[path].data)]
      ensures if readable then r == |src| && Written(old(nodes)[path].data, at, src, nodes[path].data)
              else r == EFAULT && Written(old(nodes)[path].data, at + |src|, [], nodes[path].data)
    {
      hide Valid, Tree, Roots;
      var data := nodes[path].data;
      var grown := Grown(data, at + |src|);
      if !readable {
        Spliced(data, at + |src|, [], grown, grown[..at + |src|] + [] + grown[at + |src|..]);
        assert grown[..at + |src|] + [] + grown[at + |src|..] == grown;
        Replace(path, grown);
        return EFAULT;
      }
      var data' := grown[..at] + src + grown[at + |src|..];
      Spliced(data, at, src, grown, data');
      Replace(path, data');
      return |src|;
    }

    /** resize_path: truncate or extend with zeros, within the cap.  The test of the cap is a sum that
        wraps; None stands for the panic of a vector that cannot grow to such a length, and it
        happens exactly when the sum wraps. */
    method Resize(path: Path, len: nat) returns (r: Option<int>)
      requires Valid() && len < U64
      modifies this`nodes, this`total
      ensures Valid() && (old(Tree(nodes)) ==> Tree(nodes)) && Roots(nodes) == Roots(old(nodes))
      ensures var m := old(nodes);
        if path !in m then r == Some(ENOENT) && nodes == m
        else if m[path].isDir then r == Some(EISDIR) && nodes == m
        else if len <= |m[path].data| || old(total) + (len - |m[path].data|) <= 4_194_304
        then r == Some(0) && path in nodes && nodes == m[path := m[path].(data := nodes[path].data)] && CutOrZeroed(m[path].data, len, nodes[path].data)
        else nodes == m && r == if old(total) + (len - |m[path].data|) < U64 then Some(ENOSPC) else None
    {
      hide Tree, Roots;
      if path !in nodes { return Some(ENOENT); }
      FileWithin(nodes, path);
      var node := nodes[path];
      if node.isDir { return Some(EISDIR); }
      if len > |node.data| && (total + (len - |node.data|)) % U64 > CAP { return Some(ENOSPC); }
      if len > MAX_VEC { return None; }
      ResizedIs(node.data, len);
      hide Resized, CutOrZeroed;
      Replace(path, Resized(node.data, len));
      return Some(0);
    }

    method Unlink(path: Path) returns (r: int)
      requires Valid()
      modifies this`nodes, this`total
      ensures Valid() && (old(Tree(nodes)) ==> Tree(nodes)) && Roots(nodes) == Roots(old(nodes))
      ensures var m, n := old(nodes), Norm(path);
        if n !in m then r == ENOENT && nodes == m
        else if m[n].isDir then r == EISDIR && nodes == m
        else r == 0 && nodes == m - {n}
    {
      var n := Normalise(path);
      if n !in nodes { return ENOENT; }
      if nodes[n].isDir { return EISDIR; }
      if Tree(nodes) { NoChildren(nodes, n); }
      Remove(n);
      return 0;
    }

    /** Removes a node and its bytes. */
    method Remove(p: Path)
      requires Valid() && p in nodes
      modifies this`nodes, this`total
      ensures Valid() && nodes == old(nodes) - {p} && Roots(nodes) == Roots(old(nodes)) - {p}
      ensures old(Tree(nodes) && !HasChildren(nodes, p)) ==> Tree(nodes)
    {
      if Tree(nodes) && !HasChildren(nodes, p) { RemoveKeepsTree(nodes, p); }
      BytesWithout(nodes, p);
      total := total - |nodes[p].data|;
      nodes := nodes - {p};
    }

    method Mkdir(path: Path, mode: nat) returns (r: int)
      requires Valid()
      modifies this`nodes
      ensures Valid() && (old(Tree(nodes)) ==> Tree(nodes)) && Roots(nodes) == Roots(old(nodes))
      ensures var m, n := old(nodes), Norm(path);
        if n in m then r == EEXIST && nodes == m
        else if Parent(n) !in m then r == ENOENT && nodes == m
        else if !m[Parent(n)].isDir then r == ENOTDIR && nodes == m
        else r == 0 && nodes == m[n := Node(true, [], if mode % 0x1000 == 0 then 0x1ED else mode % 0x1000)]
    {
      hide Tidy, Tree, Counted, Roots, Parent, Normal;
      var n := Normalise(path);
      NormIsNormal(path);
      if n in nodes { return EEXIST; }
      if Parent(n) !in nodes { return ENOENT; }
      if !nodes[Parent(n)].isDir { return ENOTDIR; }
      Create(n, Node(true, [], Perm(mode, 0x1ED)));
      return 0;
    }

    /** rename.  A destination is removed first; a directory that still has children stays.  The
        byte count is right in every case.  A tree survives exactly when no directory moves beneath
        itself, and a mount root is lost exactly when it is what moves. */
    method Rename(oldPath: Path, newPath: Path) returns (r: int)
      requires Valid()
      modifies this`nodes, this`total
      ensures Valid()
      ensures var m, o, w := old(nodes), Norm(oldPath), Norm(newPath);
        && (Tree(m) ==> (Tree(nodes) <==> !(Moves(m, o, w) && IsUnder(w, o))))
        && Roots(nodes) == (if Moves(m, o, w) then Roots(m) - {o} else Roots(m))
      ensures var m, o, w := old(nodes), Norm(oldPath), Norm(newPath);
        if o == w then r == 0 && nodes == m
        else if o !in m || Parent(w) !in m then r == ENOENT && nodes == m
        else if !m[Parent(w)].isDir then r == ENOTDIR && nodes == m
        else if w in m && m[w].isDir != m[o].isDir then r == (if m[w].isDir then EISDIR else ENOTDIR) && nodes == m
        else if w in m && m[w].isDir && HasChildren(m, w) then r == ENOTEMPTY && nodes == m
        else if m[o].isDir && HasChildren(m - {w}, o) then r == EINVAL && nodes == m - {w}
        else r == 0 && nodes == (m - {w} - {o})[w := m[o]]
    {
      hide Tidy, Tree, Counted, Roots, Parent, Normal;
      var o := Normalise(oldPath);
      var w := Normalise(newPath);
      if o == w { return 0; }
      if o !in nodes { return ENOENT; }
      if Parent(w) !in nodes { return ENOENT; }
      if !nodes[Parent(w)].isDir { return ENOTDIR; }
      NormIsNormal(newPath);
      r := Move(o, w);
    }

    method Move(o: Path, w: Path) returns (r: int)
      requires Valid() && o != w && o in nodes && Normal(w) && IsDirAt(nodes, Parent(w))
      modifies this`nodes, this`total
      ensures Valid()
      ensures var m := old(nodes);
        && (Tree(m) ==> (Tree(nodes) <==> !(Moves(m, o, w) && IsUnder(w, o))))
        && Roots(nodes) == (if Moves(m, o, w) then Roots(m) - {o} else Roots(m))
      ensures var m := old(nodes);
        if w in m && m[w].isDir != m[o].isDir then r == (if m[w].isDir then EISDIR else ENOTDIR) && nodes == m
        else if w in m && m[w].isDir && HasChildren(m, w) then r == ENOTEMPTY && nodes == m
        else if m[o].isDir && HasChildren(m - {w}, o) then r == EINVAL && nodes == m - {w}
        else r == 0 && nodes == (m - {w} - {o})[w := m[o]]
    {
      NothingAboveRoots(nodes, w);
      NotItself(w);
      hide Tidy, Tree, Counted, Parent, Roots, HasChildren, Normal, IsUnder;
      r := Vacate(w, nodes[o].isDir);
      if r == 0 { r := Shift(o, w); }
    }

    /** Removes the destination of a rename, if there is one. */
    method Vacate(w: Path, srcIsDir: bool) returns (r: int)
      requires Valid() && IsDirAt(nodes, Parent(w))
      modifies this`nodes, this`total
      ensures Valid() && (old(Tree(nodes)) ==> Tree(nodes)) && Roots(nodes) == Roots(old(nodes))
      ensures var m := old(nodes);
        if w in m && m[w].isDir != srcIsDir then r == (if m[w].isDir then EISDIR else ENOTDIR) && nodes == m
        else if w in m && m[w].isDir && HasChildren(m, w) then r == ENOTEMPTY && nodes == m
        else r == 0 && nodes == m - {w}
    {
      NothingAboveRoots(nodes, w);
      assert w !in Roots(nodes);
      hide Tidy, Tree, Counted, Parent, Roots, HasChildren;
      if w !in nodes {
        assert nodes == nodes - {w};
        return 0;
      }
      if nodes[w].isDir != srcIsDir { return if nodes[w].isDir then EISDIR else ENOTDIR; }
      if nodes[w].isDir && HasChildren(nodes, w) { return ENOTEMPTY; }
      if Tree(nodes) { NoChildren(nodes, w); }
      Remove(w);
      return 0;
    }

    /** The part of rename after the destination is gone. */
    method Shift(o: Path, w: Path) returns (r: int)
      requires Valid() && o in nodes && w !in nodes && Normal(w) && IsDirAt(nodes, Parent(w))
      modifies this`nodes, this`total
      ensures Valid()
      ensures var m := old(nodes);
        if m[o].isDir && HasChildren(m, o) then r == EINVAL && nodes == m
        else
          && r == 0 && nodes == (m - {o})[w := m[o]] && Roots(nodes) == Roots(m) - {o}
          && (Tree(m) ==> (Tree(nodes) <==> !IsUnder(w, o)))
    {
      hide Tidy, Tree, Counted, Parent, Roots, HasChildren, Normal, IsUnder;
      if nodes[o].isDir && HasChildren(nodes, o) { return EINVAL; }
      if Tree(nodes) {
        NoChildren(nodes, o);
        MovedTree(nodes, o, w);
      }
      MovedTidy(nodes, o, w);
      MovedTotal(nodes, total, o, w);
      nodes := (nodes - {o})[w := nodes[o]];
      return 0;
    }

    method Rmdir(path: Path) returns (r: int)
      requires Valid()
      modifies this`nodes, this`total
      ensures Valid() && (old(Tree(nodes)) ==> Tree(nodes)) && Roots(nodes) == Roots(old(nodes))
      ensures var m, n := old(nodes), Norm(path);
        if IsMountRoot(n) then r == EPERM && nodes == m
        else if n !in m then r == ENOENT && nodes == m
        else if !m[n].isDir then r == ENOTDIR && nodes == m
        else if HasChildren(m, n) then r == ENOTEMPTY && nodes == m
        else r == 0 && nodes == m - {n}
    {
      var n := Normalise(path);
      if n == "/tmp" || n == "/dev/shm" { return EPERM; }
      if n !in nodes { return ENOENT; }
      if !nodes[n].isDir { return ENOTDIR; }
      if HasChildren(nodes, n) { return ENOTEMPTY; }
      Remove(n);
      return 0;
    }
  }

  lemma TwoRoots(m: Nodes)
    requires m == map["/tmp" := Node(true, [], 0x1FF), "/dev/shm" := Node(true, [], 0x1FF)]
    ensures Bytes(m) == 0
  {
    BytesWithout(m, "/tmp");
    BytesWithout(m - {"/tmp"}, "/dev/shm");
    assert m - {"/tmp"} - {"/dev/shm"} == map[];
  }

  lemma FileWithin(m: Nodes, p: Path)
    requires p in m
    ensures |m[p].data| <= Bytes(m)
  {
    BytesWithout(m, p);
  }
}

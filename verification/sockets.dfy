/** Ownership in the socket layer (src/net/socket.rs).  Each method is one critical section; handles and
    fd numbers that a call carries from one section to the next are in the ghost hands.  So the
    invariants hold for every interleaving of calls on any number of CPUs. */
module Sockets {
  import opened Wrappers

  const SOCK_FD_BASE: nat := 500
  const LISTENER_POOL_SIZE: nat := 64
  const CLOSING_REAP_MS: nat := 15_000
  const U64: nat := 0x1_0000_0000_0000_0000
  const EBADF: int := -9
  const EADDRINUSE: int := -98
  const EINPROGRESS: int := -115
  const ECONNREFUSED: int := -111

  type Handle = nat
  datatype Kind = TcpStream | TcpListener | UdpDgram
  datatype TcpState = Closed | Listen | SynSent | SynReceived | Established | CloseWait | FinWait | LastAck | TimeWait

  datatype Sock = Sock(fd: nat, kind: Kind, handle: Handle, backlog: seq<Handle>) {
    function Handles(): seq<Handle> { [handle] + backlog }
  }

  type Ms = x: nat | x < 0x1_0000_0000_0000_0000

  datatype Entry = Entry(handle: Handle, since: Ms)

  /** now.wrapping_sub(since) */
  function Elapsed(now: Ms, since: Ms): (ms: Ms)
    ensures since + ms == now || since + ms == now + U64
  {
    if since <= now then now - since else now + U64 - since
  }

  // ---- counting owners ----

  function Without<T>(s: seq<T>, i: nat): seq<T>
    requires i < |s|
  {
    s[..i] + s[i + 1..]
  }

  function One(b: bool): nat {
    if b then 1 else 0
  }

  /** How often x occurs in s. */
  function Count(s: seq<nat>, x: nat): nat {
    if s == [] then 0 else Count(s[..|s| - 1], x) + One(s[|s| - 1] == x)
  }

  lemma CountPush(s: seq<nat>, y: nat, x: nat)
    ensures Count(s + [y], x) == Count(s, x) + One(y == x)
  {
    assert (s + [y])[..|s|] == s;
  }

  lemma {:induction false} CountAt(s: seq<nat>, i: nat, x: nat)
    requires i < |s|
    ensures Count(s, x) == Count(Without(s, i), x) + One(s[i] == x)
  {
    var n := |s| - 1;
    if i < n {
      CountAt(s[..n], i, x);
      assert Without(s, i) == Without(s[..n], i) + [s[n]];
      CountPush(Without(s[..n], i), s[n], x);
    } else {
      assert Without(s, i) == s[..n];
    }
  }

  lemma CountUpdate(s: seq<nat>, i: nat, y: nat, x: nat)
    requires i < |s|
    ensures Count(s[i := y], x) + One(s[i] == x) == Count(s, x) + One(y == x)
  {
    CountAt(s, i, x);
    CountAt(s[i := y], i, x);
    assert Without(s[i := y], i) == Without(s, i);
  }

  lemma {:induction false} CountConcat(s: seq<nat>, t: seq<nat>, x: nat)
    ensures Count(s + t, x) == Count(s, x) + Count(t, x)
    decreases |t|
  {
    if t == [] {
      assert s + t == s;
    } else {
      var n := |t| - 1;
      CountConcat(s, t[..n], x);
      assert s + t == (s + t[..n]) + [t[n]];
      CountPush(s + t[..n], t[n], x);
    }
  }

  lemma CountMember(s: seq<nat>, i: nat)
    requires i < |s|
    ensures Count(s, s[i]) >= 1
  {
    CountAt(s, i, s[i]);
  }

  /** How often h occurs among the handles of the sockets. */
  function InSockets(s: seq<Sock>, h: Handle): nat {
    if s == [] then 0 else InSockets(s[..|s| - 1], h) + Count(s[|s| - 1].Handles(), h)
  }

  lemma InSocketsPush(s: seq<Sock>, k: Sock, h: Handle)
    ensures InSockets(s + [k], h) == InSockets(s, h) + Count(k.Handles(), h)
  {
    assert (s + [k])[..|s|] == s;
  }

  lemma {:induction false} InSocketsAt(s: seq<Sock>, i: nat, h: Handle)
    requires i < |s|
    ensures InSockets(s, h) == InSockets(Without(s, i), h) + Count(s[i].Handles(), h)
  {
    var n := |s| - 1;
    if i < n {
      InSocketsAt(s[..n], i, h);
      assert Without(s, i) == Without(s[..n], i) + [s[n]];
      InSocketsPush(Without(s[..n], i), s[n], h);
    } else {
      assert Without(s, i) == s[..n];
    }
  }

  lemma InSocketsUpdate(s: seq<Sock>, i: nat, k: Sock, h: Handle)
    requires i < |s|
    ensures InSockets(s[i := k], h) + Count(s[i].Handles(), h) == InSockets(s, h) + Count(k.Handles(), h)
  {
    InSocketsAt(s, i, h);
    InSocketsAt(s[i := k], i, h);
    assert Without(s[i := k], i) == Without(s, i);
  }

  function Fds(s: seq<Sock>): seq<nat> {
    seq(|s|, i requires 0 <= i < |s| => s[i].fd)
  }

  function Parked(c: seq<Entry>): seq<Handle> {
    seq(|c|, i requires 0 <= i < |c| => c[i].handle)
  }

  function Owners(sockets: seq<Sock>, closing: seq<Entry>, hands: seq<Handle>, h: Handle): nat {
    InSockets(sockets, h) + Count(Parked(closing), h) + Count(hands, h)
  }

  /** Every handle of the socket set has exactly one owner: a socket, a pool slot, the closing list,
      or a call in progress; and nothing owns a handle that is not in the set. */
  ghost predicate Owned(sockets: seq<Sock>, closing: seq<Entry>, hands: seq<Handle>, table: map<Handle, TcpState>) {
    forall h: Handle :: Owners(sockets, closing, hands, h) == One(h in table)
  }

  function Numbers(sockets: seq<Sock>, recycled: seq<nat>, fdHands: seq<nat>, f: nat): nat {
    Count(Fds(sockets), f) + Count(recycled, f) + Count(fdHands, f)
  }

  /** Every fd number ever handed out is in exactly one place. */
  ghost predicate Numbered(sockets: seq<Sock>, recycled: seq<nat>, fdHands: seq<nat>, nextFd: nat) {
    forall f: nat :: Numbers(sockets, recycled, fdHands, f) == One(SOCK_FD_BASE <= f < nextFd)
  }

  predicate PoolOk(k: Sock) {
    if k.kind == TcpListener then k.backlog == [] || |k.backlog| == 63 else k.backlog == []
  }

  /** Slot n of the pool, counting the primary as slot 0, replaced. */
  function Refit(k: Sock, n: nat, h: Handle): Sock
    requires n < |k.Handles()|
  {
    if n == 0 then k.(handle := h) else k.(backlog := k.backlog[n - 1 := h])
  }

  lemma RefitHandles(k: Sock, n: nat, h: Handle)
    requires n < |k.Handles()|
    ensures var k' := Refit(k, n, h);
      k'.Handles() == k.Handles()[n := h] && k'.fd == k.fd && k'.kind == k.kind && PoolOk(k') == PoolOk(k)
  {
  }

  predicate Pools(s: seq<Sock>) {
    forall i :: 0 <= i < |s| ==> PoolOk(s[i])
  }

  lemma {:induction false} CountTwice(s: seq<nat>, a: nat, b: nat)
    requires a < b < |s| && s[a] == s[b]
    ensures Count(s, s[a]) >= 2
  {
    CountAt(s, b, s[a]);
    assert Without(s, b)[a] == s[a];
    CountMember(Without(s, b), a);
  }

  /** No fd number belongs to two sockets. */
  lemma FdsDistinct(sockets: seq<Sock>, recycled: seq<nat>, fdHands: seq<nat>, nextFd: nat, i: nat, j: nat)
    requires Numbered(sockets, recycled, fdHands, nextFd) && i < j < |sockets|
    ensures sockets[i].fd != sockets[j].fd
  {
    assert Numbers(sockets, recycled, fdHands, sockets[i].fd) <= 1;
    if sockets[i].fd == sockets[j].fd { CountTwice(Fds(sockets), i, j); }
  }

  /** The handles of one socket are pairwise distinct and in the socket set. */
  lemma HandlesDistinct(sockets: seq<Sock>, closing: seq<Entry>, hands: seq<Handle>, table: map<Handle, TcpState>, i: nat, a: nat, b: nat)
    requires Owned(sockets, closing, hands, table) && i < |sockets| && a < b < |sockets[i].Handles()|
    ensures sockets[i].Handles()[a] != sockets[i].Handles()[b] && sockets[i].Handles()[a] in table
  {
    var hs := sockets[i].Handles();
    InSocketsAt(sockets, i, hs[a]);
    CountMember(hs, a);
    assert Owners(sockets, closing, hands, hs[a]) == One(hs[a] in table);
    if hs[a] == hs[b] { CountTwice(hs, a, b); }
  }

  predicate Finished(st: TcpState) {
    st == Closed || st == TimeWait
  }

  /** Must this closing entry go in a reap at time `now`? */
  predicate Due(e: Entry, table: map<Handle, TcpState>, now: Ms) {
    e.handle in table && (Finished(table[e.handle]) || Elapsed(now, e.since) >= 15_000)
  }

  class Net {
    var sockets: seq<Sock>
    var recycled: seq<nat>
    var closing: seq<Entry>
    var nextFd: nat
    var table: map<Handle, TcpState>   // the smoltcp socket set, apart from the DHCP client
    const dhcp: Option<Handle>         // the DHCP client's handle in the same set
    ghost var hands: seq<Handle>       // handles carried by calls in progress
    ghost var fdHands: seq<nat>        // fd numbers carried by calls in progress

    ghost predicate Valid()
      reads this
    {
      && SOCK_FD_BASE <= nextFd
      && Owned(sockets, closing, hands, table)
      && Numbered(sockets, recycled, fdHands, nextFd)
      && Pools(sockets)
      && !Leased(table)
    }

    /** Does the table hold the DHCP client's handle? */
    predicate Leased(t: map<Handle, TcpState>) {
      dhcp.Some? && dhcp.value in t
    }

    /** A handle the socket set can hand out. */
    predicate Fresh(h: Handle)
      reads this
    {
      h !in table && dhcp != Some(h)
    }

    constructor (dhcp: Option<Handle>)
      ensures Valid() && this.dhcp == dhcp && sockets == [] && closing == [] && recycled == [] && table == map[]
    {
      this.dhcp := dhcp;
      sockets, recycled, closing, nextFd, table := [], [], [], SOCK_FD_BASE, map[];
      hands, fdHands := [], [];
    }

    /** The network stack moves a socket's state; it never adds or removes a handle. */
    method Poll(h: Handle, st: TcpState)
      requires Valid() && h in table
      modifies this`table
      ensures Valid() && table == old(table)[h := st]
    {
      Restated(sockets, closing, hands, table, h, st);
      table := table[h := st];
    }

    /** sys_socket, first section: a new handle h from the socket set. */
    method AddSocket(h: Handle)
      requires Valid() && Fresh(h)
      modifies this`table, this`hands
      ensures Valid() && table == old(table)[h := Closed] && hands == old(hands) + [h]
    {
      Acquired(sockets, closing, hands, table, h, Closed);
      hide Owned;
      table := table[h := Closed];
      hands := hands + [h];
    }

    /** alloc_fd: a recycled number if there is one, else a new one. */
    method AllocFd() returns (fd: nat)
      requires Valid()
      modifies this`recycled, this`nextFd, this`fdHands
      ensures Valid() && fdHands == old(fdHands) + [fd]
      ensures if old(recycled) != [] then recycled + [fd] == old(recycled) && nextFd == old(nextFd)
              else fd == old(nextFd) && nextFd == fd + 1 && recycled == []
      ensures forall i :: 0 <= i < |sockets| ==> sockets[i].fd != fd
    {
      hide Owned;
      if recycled != [] {
        var n := |recycled| - 1;
        fd := recycled[n];
        Reused(sockets, recycled, fdHands, nextFd);
        hide Numbered;
        recycled := recycled[..n];
      } else {
        fd := nextFd;
        NewNumber(sockets, recycled, fdHands, nextFd);
        hide Numbered;
        nextFd := nextFd + 1;
      }
      fdHands := fdHands + [fd];
      forall i | 0 <= i < |sockets| ensures sockets[i].fd != fd { InHandOnly(sockets, recycled, fdHands, nextFd, i); }
    }

    /** The last section of sys_socket and sys_accept: the new socket enters the table. */
    method Publish(kind: Kind, fd: nat, h: Handle, ghost a: nat, ghost b: nat)
      requires Valid() && a < |fdHands| && fdHands[a] == fd && b < |hands| && hands[b] == h && kind != TcpListener
      modifies this`sockets, this`hands, this`fdHands
      ensures Valid() && sockets == old(sockets) + [Sock(fd, kind, h, [])]
      ensures hands == Without(old(hands), b) && fdHands == Without(old(fdHands), a)
    {
      var k := Sock(fd, kind, h, []);
      Published(sockets, closing, hands, table, k, b);
      PublishedFd(sockets, recycled, fdHands, nextFd, k, a);
      hide Owned;
      hide Numbered;
      sockets := sockets + [k];
      hands := Without(hands, b);
      fdHands := Without(fdHands, a);
    }

    /** Index of the socket with this fd. */
    method Find(fd: nat) returns (i: Option<nat>)
      ensures i.Some? ==> i.value < |sockets| && sockets[i.value].fd == fd
      ensures i == None ==> forall j :: 0 <= j < |sockets| ==> sockets[j].fd != fd
    {
      for j := 0 to |sockets|
        invariant forall n :: 0 <= n < j ==> sockets[n].fd != fd
      {
        if sockets[j].fd == fd { return Some(j); }
      }
      return None;
    }

    // ---- accept ----

    predicate Ready(h: Handle)
      reads this
    {
      h in table && (table[h] == Established || table[h] == CloseWait)
    }

    /** One capture attempt of sys_accept on the listener at index i: the first established
        connection of the pool is captured and its slot refilled with a fresh listener, or, below
        the heap reserve, reset to a listener in place.  Either way the pool keeps its size. */
    method Capture(i: nat, overBudget: bool, h: Handle) returns (got: Option<Handle>, ghost slot: nat)
      requires Valid() && i < |sockets| && Fresh(h)
      modifies this`sockets, this`table, this`hands
      ensures Valid() && |sockets| == |old(sockets)|
      ensures forall j :: 0 <= j < |sockets| && j != i ==> sockets[j] == old(sockets[j])
      ensures sockets[i].fd == old(sockets[i].fd) && sockets[i].kind == old(sockets[i].kind)
      ensures got.Some? ==>
        && !overBudget && hands == old(hands) + [got.value] && slot < |old(sockets[i]).Handles()|
        && got.value == old(sockets[i]).Handles()[slot] && old(Ready(got.value))
        && (forall n :: 0 <= n < slot ==> !old(Ready(sockets[i].Handles()[n])))
        && sockets[i].Handles() == old(sockets[i]).Handles()[slot := h] && table == old(table)[h := Listen]
      ensures got == None ==> hands == old(hands) && sockets == old(sockets) && table.Keys == old(table.Keys)
      ensures got == None && overBudget ==>
        || (table == old(table) && forall n :: 0 <= n < |sockets[i].Handles()| ==> !old(Ready(sockets[i].Handles()[n])))
        || exists n :: 0 <= n < |sockets[i].Handles()| && old(Ready(sockets[i].Handles()[n])) && table == old(table)[sockets[i].Handles()[n] := Listen]
      ensures got == None && !overBudget ==>
        table == old(table) && forall n :: 0 <= n < |sockets[i].Handles()| ==> !Ready(sockets[i].Handles()[n])
    {
      hide Owned;
      hide Numbered;
      hide Pools;
      var hs := [sockets[i].handle] + sockets[i].backlog;
      for n := 0 to |hs|
        invariant sockets == old(sockets) && table == old(table) && hands == old(hands)
        invariant forall m :: 0 <= m < n ==> !Ready(hs[m])
      {
        SlotInTable(i, n);
        if table[hs[n]] == Established || table[hs[n]] == CloseWait {
          if overBudget {
            Poll(hs[n], Listen);
            return None, 0;
          }
          Refill(i, n, h);
          return Some(hs[n]), n;
        }
      }
      return None, 0;
    }

    lemma SlotInTable(i: nat, n: nat)
      requires Valid() && i < |sockets| && n < |sockets[i].Handles()|
      ensures sockets[i].Handles()[n] in table
    {
      var h := sockets[i].Handles()[n];
      InSocketsAt(sockets, i, h);
      CountMember(sockets[i].Handles(), n);
      assert Owners(sockets, closing, hands, h) == One(h in table);
    }

    /** Slot n of the pool of socket i gets the fresh handle h; the old one is carried off. */
    method Refill(i: nat, n: nat, h: Handle)
      requires Valid() && i < |sockets| && n < |sockets[i].Handles()| && Fresh(h)
      modifies this`sockets, this`table, this`hands
      ensures Valid() && table == old(table)[h := Listen] && hands == old(hands) + [old(sockets[i].Handles()[n])]
      ensures |sockets| == |old(sockets)| && forall j :: 0 <= j < |sockets| && j != i ==> sockets[j] == old(sockets[j])
      ensures sockets[i].fd == old(sockets[i].fd) && sockets[i].kind == old(sockets[i].kind)
      ensures sockets[i].Handles() == old(sockets[i].Handles())[n := h]
    {
      hide Owned;
      hide Numbered;
      var k := sockets[i];
      var k' := Refit(k, n, h);
      RefitHandles(k, n, h);
      Refilled(sockets, closing, hands, table, i, k', n, h);
      SameFds(sockets, recycled, fdHands, nextFd, i, k');
      assert PoolOk(k);
      hide Refit;
      hide PoolOk;
      sockets := sockets[i := k'];
      table := table[h := Listen];
      hands := hands + [k.Handles()[n]];
    }

    // ---- listen ----

    /** sys_listen on the socket at index i; `spares` are the handles the socket set hands out.  A
        datagram socket's handle is not a TCP socket, and asking for one panics: None.  A refused
        listen leaves the pool as it is.  Ownership survives exactly when the socket had no pool
        before: a second listen drops the old spares. */
    method ListenOn(i: nat, accepted: bool, spares: seq<Handle>) returns (r: Option<int>)
      requires Valid() && i < |sockets| && FreshSpares(spares, table) && NotDhcp(spares)
      modifies this`sockets, this`table
      ensures r == if old(sockets[i].kind) == UdpDgram then None else if accepted then Some(0) else Some(EADDRINUSE)
      ensures |sockets| == |old(sockets)| && sockets[i].kind == TcpListener
      ensures forall j :: 0 <= j < |sockets| && j != i ==> sockets[j] == old(sockets[j])
      ensures r == Some(0) ==> sockets[i] == old(sockets[i]).(kind := TcpListener, backlog := spares) && (Valid() <==> old(sockets[i].backlog) == [])
      ensures r == Some(0) ==> forall h :: h in table <==> h in old(table) || h in spares
      ensures r == Some(0) ==> forall h :: h in table ==> table[h] == if h in sockets[i].Handles() then Listen else old(table)[h]
      ensures r != Some(0) ==> Valid() && sockets[i] == old(sockets[i]).(kind := TcpListener) && table == old(table)
    {
      var k := sockets[i].(kind := TcpListener);
      SameHandles(sockets, closing, hands, table, i, k);
      SameFds(sockets, recycled, fdHands, nextFd, i, k);
      assert PoolOk(sockets[i]) && PoolOk(k);
      hide Owned;
      hide Numbered;
      var isTcp := sockets[i].kind != UdpDgram;
      sockets := sockets[i := k];
      if !isTcp { return None; }
      if !accepted { return Some(EADDRINUSE); }
      PrimaryInTable(i);
      Poll(k.handle, Listen);
      Spread(i, spares);
      return Some(0);
    }

    predicate NotDhcp(spares: seq<Handle>) {
      forall n :: 0 <= n < |spares| ==> dhcp != Some(spares[n])
    }

    /** Fresh listeners enter the socket set. */
    method AddListeners(spares: seq<Handle>)
      requires !Leased(table) && NotDhcp(spares)
      modifies this`table
      ensures table == AddAll(old(table), spares) && !Leased(table)
      ensures forall h :: h in table <==> h in old(table) || h in spares
      ensures forall h :: h in table ==> table[h] == if h in spares then Listen else old(table)[h]
    {
      ghost var was := table;
      for n := 0 to |spares|
        invariant table == AddAll(was, spares[..n]) && !Leased(table)
        invariant forall h :: h in table <==> h in was || h in spares[..n]
        invariant forall h :: h in table ==> table[h] == if h in spares[..n] then Listen else was[h]
      {
        assert spares[..n + 1] == spares[..n] + [spares[n]];
        table := table[spares[n] := Listen];
      }
      assert spares[..|spares|] == spares;
    }

    /** Replaces the backlog of socket i by fresh listeners. */
    method Spread(i: nat, spares: seq<Handle>)
      requires Valid() && i < |sockets| && sockets[i].kind == TcpListener && FreshSpares(spares, table) && NotDhcp(spares)
      modifies this`sockets, this`table
      ensures sockets == old(sockets)[i := old(sockets[i]).(backlog := spares)]
      ensures forall h :: h in table <==> h in old(table) || h in spares
      ensures forall h :: h in table ==> table[h] == if h in spares then Listen else old(table)[h]
      ensures Valid() <==> old(sockets[i].backlog) == []
    {
      ghost var was := table;
      AddListeners(spares);
      var k' := sockets[i].(backlog := spares);
      SpreadIff(sockets, closing, hands, was, i, spares);
      SameFds(sockets, recycled, fdHands, nextFd, i, k');
      assert PoolOk(k');
      hide Owned;
      hide Numbered;
      sockets := sockets[i := k'];
    }

    /** sys_connect on the socket at index i.  It turns a listener into a stream and leaves the pool
        where it is; the pools stay in order exactly when there was none. */
    method Connect(i: nat, started: bool) returns (r: int)
      requires Valid() && i < |sockets|
      modifies this`sockets, this`table
      ensures r == if old(sockets[i].kind) == UdpDgram then 0 else if started then EINPROGRESS else ECONNREFUSED
      ensures table == if r == EINPROGRESS then old(table)[old(sockets[i].handle) := SynSent] else old(table)
      ensures sockets == (if r == 0 then old(sockets) else old(sockets)[i := old(sockets[i]).(kind := TcpStream)])
      ensures Valid() <==> old(sockets[i].backlog) == []
    {
      hide Numbered;
      if sockets[i].kind == UdpDgram {
        assert PoolOk(sockets[i]);
        return 0;
      }
      var k := sockets[i].(kind := TcpStream);
      SameHandles(sockets, closing, hands, table, i, k);
      SameFds(sockets, recycled, fdHands, nextFd, i, k);
      PrimaryInTable(i);
      if started { Restated(sockets[i := k], closing, hands, table, k.handle, SynSent); }
      hide Owned;
      sockets := sockets[i := k];
      assert sockets[i] == k;
      if !started { return ECONNREFUSED; }
      table := table[k.handle := SynSent];
      return EINPROGRESS;
    }

    lemma PrimaryInTable(i: nat)
      requires Valid() && i < |sockets|
      ensures sockets[i].handle in table
    {
      var h := sockets[i].handle;
      InSocketsAt(sockets, i, h);
      CountMember(sockets[i].Handles(), 0);
      assert Owners(sockets, closing, hands, h) == One(h in table);
    }

    // ---- close ----

    /** close, first section: the socket leaves the table; its handles and number are in hand. */
    method Detach(fd: nat) returns (k: Option<Sock>)
      requires Valid()
      modifies this`sockets, this`hands, this`fdHands
      ensures Valid()
      ensures k == None ==> sockets == old(sockets) && hands == old(hands) && fdHands == old(fdHands)
      ensures k.Some? ==>
        && k.value.fd == fd && k.value in old(sockets)
        && hands == old(hands) + k.value.Handles() && fdHands == old(fdHands) + [fd]
      ensures forall j :: 0 <= j < |sockets| ==> sockets[j].fd != fd
    {
      var i := Find(fd);
      if i == None { return None; }
      var s := sockets[i.value];
      Detached(sockets, closing, hands, table, i.value);
      DetachedFd(sockets, recycled, fdHands, nextFd, i.value);
      PoolsWithout(sockets, i.value);
      hide Owned;
      hide Numbered;
      hide Pools;
      sockets := Without(sockets, i.value);
      hands := hands + s.Handles();
      fdHands := fdHands + [fd];
      forall j | 0 <= j < |sockets| ensures sockets[j].fd != fd { InHandOnly(sockets, recycled, fdHands, nextFd, j); }
      return Some(s);
    }

    /** close, second section: the number goes back to the free list. */
    method RecycleFd(fd: nat, ghost a: nat)
      requires Valid() && a < |fdHands| && fdHands[a] == fd
      modifies this`recycled, this`fdHands
      ensures Valid() && recycled == old(recycled) + [fd] && fdHands == Without(old(fdHands), a)
    {
      RecycledFd(sockets, recycled, fdHands, nextFd, a);
      hide Owned;
      hide Numbered;
      recycled := recycled + [fd];
      fdHands := Without(fdHands, a);
    }

    /** close, last section for a stream: the stack begins to close it, which leaves it in state st, and
        its handle waits in the closing list. */
    method Park(h: Handle, now: Ms, st: TcpState, ghost b: nat)
      requires Valid() && b < |hands| && hands[b] == h
      modifies this`closing, this`hands, this`table
      ensures Valid() && closing == old(closing) + [Entry(h, now)] && hands == Without(old(hands), b)
      ensures table == old(table)[h := st]
    {
      ParkedOne(sockets, closing, hands, table, b, now);
      Restated(sockets, closing + [Entry(h, now)], Without(hands, b), table, h, st);
      hide Owned;
      table := table[h := st];
      closing := closing + [Entry(h, now)];
      hands := Without(hands, b);
    }

    /** close, last section for a listener or datagram socket: each handle leaves the set. */
    method Discard(h: Handle, ghost b: nat)
      requires Valid() && b < |hands| && hands[b] == h
      modifies this`hands, this`table
      ensures Valid() && hands == Without(old(hands), b) && table == old(table) - {h}
    {
      Discarded(sockets, closing, hands, table, b);
      hide Owned;
      hands := Without(hands, b);
      table := table - {h};
    }

    /** gc_closed_handles: exactly the finished entries and those parked for CLOSING_REAP_MS go, and
        their handles leave the socket set. */
    method Gc(now: Ms)
      requires Valid()
      modifies this`closing, this`table
      ensures Valid()
      ensures forall i :: 0 <= i < |closing| ==> !Due(closing[i], old(table), now)
      ensures forall e :: !Due(e, old(table), now) ==> (e in closing <==> e in old(closing))
      ensures forall h :: h in old(table) && h !in table ==> exists e :: e in old(closing) && e.handle == h && Due(e, old(table), now)
    {
      hide Owned;
      hide Numbered;
      hide Pools;
      var i := 0;
      while i < |closing|
        invariant Valid() && i <= |closing|
        invariant forall h :: h in table ==> h in old(table) && table[h] == old(table)[h]
        invariant forall j :: 0 <= j < i ==> !Due(closing[j], old(table), now)
        invariant forall e :: e in closing ==> e in old(closing)
        invariant forall e :: !Due(e, old(table), now) && e in old(closing) ==> e in closing
        invariant forall h :: h in old(table) && h !in table ==> exists e :: e in old(closing) && e.handle == h && Due(e, old(table), now)
        decreases |closing| - i
      {
        ParkedInTable(i);
        var e := closing[i];
        assert e in closing;
        var done := table[e.handle] == Closed || table[e.handle] == TimeWait;
        var stranded := !done && Elapsed(now, e.since) >= CLOSING_REAP_MS;
        if done || stranded { Reap(i); } else { i := i + 1; }
      }
    }

    lemma ParkedInTable(i: nat)
      requires Valid() && i < |closing|
      ensures closing[i].handle in table
    {
      CountMember(Parked(closing), i);
      assert Owners(sockets, closing, hands, closing[i].handle) == One(closing[i].handle in table);
    }

    /** Removes entry i by swapping in the last one, and its handle from the socket set. */
    method Reap(i: nat)
      requires Valid() && i < |closing|
      modifies this`closing, this`table
      ensures Valid() && |closing| == |old(closing)| - 1
      ensures forall j :: 0 <= j < i ==> closing[j] == old(closing)[j]
      ensures forall e :: e in closing ==> e in old(closing)
      ensures forall e :: e in old(closing) && e != old(closing)[i] ==> e in closing
      ensures table == old(table) - {old(closing)[i].handle}
    {
      var h := closing[i].handle;
      var n := |closing| - 1;
      Reaped(sockets, closing, hands, table, i);
      SwapRemoved(closing, i);
      hide Owned;
      hide Numbered;
      hide Pools;
      closing := closing[i := closing[n]][..n];
      table := table - {h};
    }
  }

  // ---- how each section moves handles ----

  lemma Restated(s: seq<Sock>, c: seq<Entry>, q: seq<Handle>, t: map<Handle, TcpState>, h: Handle, st: TcpState)
    requires Owned(s, c, q, t) && h in t
    ensures Owned(s, c, q, t[h := st])
  {
    forall x: Handle ensures Owners(s, c, q, x) == One(x in t[h := st]) {}
  }

  lemma Acquired(s: seq<Sock>, c: seq<Entry>, q: seq<Handle>, t: map<Handle, TcpState>, h: Handle, st: TcpState)
    requires Owned(s, c, q, t) && h !in t
    ensures Owned(s, c, q + [h], t[h := st])
  {
    forall x: Handle ensures Owners(s, c, q + [h], x) == One(x in t[h := st]) {
      CountPush(q, h, x);
      assert Owners(s, c, q, x) == One(x in t);
    }
  }

  lemma Published(s: seq<Sock>, c: seq<Entry>, q: seq<Handle>, t: map<Handle, TcpState>, k: Sock, b: nat)
    requires Owned(s, c, q, t) && b < |q| && k.handle == q[b] && k.backlog == []
    ensures Owned(s + [k], c, Without(q, b), t)
  {
    forall x: Handle ensures Owners(s + [k], c, Without(q, b), x) == One(x in t) {
      InSocketsPush(s, k, x);
      CountAt(q, b, x);
      assert k.Handles() == [] + [k.handle];
      CountPush([], k.handle, x);
      assert Owners(s, c, q, x) == One(x in t);
    }
  }

  lemma SameHandles(s: seq<Sock>, c: seq<Entry>, q: seq<Handle>, t: map<Handle, TcpState>, i: nat, k: Sock)
    requires Owned(s, c, q, t) && i < |s| && k.Handles() == s[i].Handles()
    ensures Owned(s[i := k], c, q, t)
  {
    forall x: Handle ensures Owners(s[i := k], c, q, x) == One(x in t) {
      InSocketsUpdate(s, i, k, x);
      assert Owners(s, c, q, x) == One(x in t);
    }
  }

  lemma Refilled(s: seq<Sock>, c: seq<Entry>, q: seq<Handle>, t: map<Handle, TcpState>, i: nat, k: Sock, n: nat, h: Handle)
    requires Owned(s, c, q, t) && i < |s| && n < |s[i].Handles()| && h !in t && k.Handles() == s[i].Handles()[n := h]
    ensures Owned(s[i := k], c, q + [s[i].Handles()[n]], t[h := Listen])
  {
    var took, s', t' := s[i].Handles()[n], s[i := k], t[h := Listen];
    forall x: Handle ensures Owners(s', c, q + [took], x) == One(x in t') {
      InSocketsUpdate(s, i, k, x);
      CountUpdate(s[i].Handles(), n, h, x);
      CountPush(q, took, x);
      assert Owners(s, c, q, x) == One(x in t);
    }
  }

  lemma Detached(s: seq<Sock>, c: seq<Entry>, q: seq<Handle>, t: map<Handle, TcpState>, i: nat)
    requires Owned(s, c, q, t) && i < |s|
    ensures Owned(Without(s, i), c, q + s[i].Handles(), t)
  {
    forall x: Handle ensures Owners(Without(s, i), c, q + s[i].Handles(), x) == One(x in t) {
      InSocketsAt(s, i, x);
      CountConcat(q, s[i].Handles(), x);
      assert Owners(s, c, q, x) == One(x in t);
    }
  }

  lemma ParkedOne(s: seq<Sock>, c: seq<Entry>, q: seq<Handle>, t: map<Handle, TcpState>, b: nat, now: Ms)
    requires Owned(s, c, q, t) && b < |q|
    ensures q[b] in t && Owned(s, c + [Entry(q[b], now)], Without(q, b), t)
  {
    CountMember(q, b);
    assert Owners(s, c, q, q[b]) == One(q[b] in t);
    var c' := c + [Entry(q[b], now)];
    assert Parked(c') == Parked(c) + [q[b]];
    forall x: Handle ensures Owners(s, c', Without(q, b), x) == One(x in t) {
      CountPush(Parked(c), q[b], x);
      CountAt(q, b, x);
      assert Owners(s, c, q, x) == One(x in t);
    }
  }

  lemma Discarded(s: seq<Sock>, c: seq<Entry>, q: seq<Handle>, t: map<Handle, TcpState>, b: nat)
    requires Owned(s, c, q, t) && b < |q|
    ensures Owned(s, c, Without(q, b), t - {q[b]})
  {
    forall x: Handle ensures Owners(s, c, Without(q, b), x) == One(x in t - {q[b]}) {
      CountAt(q, b, x);
      assert Owners(s, c, q, x) == One(x in t);
    }
  }

  lemma SwapRemoved(c: seq<Entry>, i: nat)
    requires i < |c|
    ensures var d := c[i := c[|c| - 1]][..|c| - 1];
      && (forall e :: e in d ==> e in c)
      && (forall e :: e in c && e != c[i] ==> e in d)
  {
    var n := |c| - 1;
    var d := c[i := c[n]][..n];
    forall e | e in c && e != c[i] ensures e in d {
      var k :| 0 <= k < |c| && c[k] == e;
      assert d[if k == n then i else k] == e;
    }
  }

  lemma SwapRemovedCount(c: seq<Entry>, i: nat, x: Handle)
    requires i < |c|
    ensures Count(Parked(c[i := c[|c| - 1]][..|c| - 1]), x) + One(c[i].handle == x) == Count(Parked(c), x)
  {
    var n := |c| - 1;
    var d := c[i := c[n]][..n];
    var p := Parked(c);
    assert p == p[..n] + [p[n]];
    CountPush(p[..n], p[n], x);
    if i < n {
      assert Parked(d) == p[..n][i := p[n]];
      CountUpdate(p[..n], i, p[n], x);
    } else {
      assert Parked(d) == p[..n];
    }
  }

  lemma Reaped(s: seq<Sock>, c: seq<Entry>, q: seq<Handle>, t: map<Handle, TcpState>, i: nat)
    requires Owned(s, c, q, t) && i < |c|
    ensures Owned(s, c[i := c[|c| - 1]][..|c| - 1], q, t - {c[i].handle})
  {
    var d := c[i := c[|c| - 1]][..|c| - 1];
    forall x: Handle ensures Owners(s, d, q, x) == One(x in t - {c[i].handle}) {
      SwapRemovedCount(c, i, x);
      assert Owners(s, c, q, x) == One(x in t);
    }
  }

  // ---- listen ----

  /** A full set of distinct handles not in the socket set. */
  predicate FreshSpares(spares: seq<Handle>, t: map<Handle, TcpState>) {
    && |spares| == LISTENER_POOL_SIZE - 1
    && (forall n :: 0 <= n < |spares| ==> spares[n] !in t)
    && (forall n, m :: 0 <= n < m < |spares| ==> spares[n] != spares[m])
  }

  function AddAll(t: map<Handle, TcpState>, spares: seq<Handle>): map<Handle, TcpState> {
    if spares == [] then t else AddAll(t, spares[..|spares| - 1])[spares[|spares| - 1] := Listen]
  }

  lemma {:induction false} AddAllKeys(t: map<Handle, TcpState>, spares: seq<Handle>, x: Handle)
    requires forall n :: 0 <= n < |spares| ==> spares[n] !in t
    requires forall n, m :: 0 <= n < m < |spares| ==> spares[n] != spares[m]
    ensures One(x in AddAll(t, spares)) == One(x in t) + Count(spares, x)
  {
    if spares != [] {
      var n := |spares| - 1;
      AddAllKeys(t, spares[..n], x);
      if x == spares[n] { NotCounted(spares[..n], x); }
    }
  }

  lemma {:induction false} NotCounted(s: seq<nat>, x: nat)
    requires x !in s
    ensures Count(s, x) == 0
  {
    if s != [] { NotCounted(s[..|s| - 1], x); }
  }

  /** Replacing a pool by fresh spares keeps ownership exactly when the old pool was empty. */
  lemma SpreadIff(s: seq<Sock>, c: seq<Entry>, q: seq<Handle>, t: map<Handle, TcpState>, i: nat, spares: seq<Handle>)
    requires Owned(s, c, q, t) && i < |s| && FreshSpares(spares, t)
    ensures Owned(s[i := s[i].(backlog := spares)], c, q, AddAll(t, spares)) <==> s[i].backlog == []
  {
    var k, k' := s[i], s[i].(backlog := spares);
    forall x: Handle
      ensures Owners(s[i := k'], c, q, x) + Count(k.backlog, x) == One(x in AddAll(t, spares))
    {
      InSocketsUpdate(s, i, k', x);
      CountConcat([k.handle], k.backlog, x);
      CountConcat([k.handle], spares, x);
      AddAllKeys(t, spares, x);
      assert Owners(s, c, q, x) == One(x in t);
    }
    if k.backlog != [] { CountMember(k.backlog, 0); }
  }

  // ---- how each section moves fd numbers ----

  lemma SameFds(s: seq<Sock>, r: seq<nat>, q: seq<nat>, next: nat, i: nat, k: Sock)
    requires Numbered(s, r, q, next) && i < |s| && k.fd == s[i].fd
    ensures Numbered(s[i := k], r, q, next)
  {
    var s' := s[i := k];
    assert Fds(s') == Fds(s);
    forall f: nat ensures Numbers(s', r, q, f) == One(SOCK_FD_BASE <= f < next) {
      assert Numbers(s, r, q, f) == One(SOCK_FD_BASE <= f < next);
    }
  }

  lemma Reused(s: seq<Sock>, r: seq<nat>, q: seq<nat>, next: nat)
    requires Numbered(s, r, q, next) && r != []
    ensures Numbered(s, r[..|r| - 1], q + [r[|r| - 1]], next)
  {
    var n := |r| - 1;
    forall f: nat ensures Numbers(s, r[..n], q + [r[n]], f) == One(SOCK_FD_BASE <= f < next) {
      CountPush(q, r[n], f);
      assert Numbers(s, r, q, f) == One(SOCK_FD_BASE <= f < next);
    }
  }

  lemma NewNumber(s: seq<Sock>, r: seq<nat>, q: seq<nat>, next: nat)
    requires Numbered(s, r, q, next) && SOCK_FD_BASE <= next
    ensures Numbered(s, r, q + [next], next + 1)
  {
    forall f: nat ensures Numbers(s, r, q + [next], f) == One(SOCK_FD_BASE <= f < next + 1) {
      CountPush(q, next, f);
      assert Numbers(s, r, q, f) == One(SOCK_FD_BASE <= f < next);
    }
  }

  lemma InHandOnly(s: seq<Sock>, r: seq<nat>, q: seq<nat>, next: nat, i: nat)
    requires Numbered(s, r, q, next) && i < |s| && q != []
    ensures s[i].fd != q[|q| - 1]
  {
    CountMember(Fds(s), i);
    CountMember(q, |q| - 1);
    assert Numbers(s, r, q, s[i].fd) <= 1;
  }

  lemma PublishedFd(s: seq<Sock>, r: seq<nat>, q: seq<nat>, next: nat, k: Sock, a: nat)
    requires Numbered(s, r, q, next) && a < |q| && k.fd == q[a]
    ensures Numbered(s + [k], r, Without(q, a), next)
  {
    assert Fds(s + [k]) == Fds(s) + [k.fd];
    forall f: nat ensures Numbers(s + [k], r, Without(q, a), f) == One(SOCK_FD_BASE <= f < next) {
      CountPush(Fds(s), k.fd, f);
      CountAt(q, a, f);
      assert Numbers(s, r, q, f) == One(SOCK_FD_BASE <= f < next);
    }
  }

  lemma DetachedFd(s: seq<Sock>, r: seq<nat>, q: seq<nat>, next: nat, i: nat)
    requires Numbered(s, r, q, next) && i < |s|
    ensures Numbered(Without(s, i), r, q + [s[i].fd], next)
  {
    assert Fds(Without(s, i)) == Without(Fds(s), i);
    forall f: nat ensures Numbers(Without(s, i), r, q + [s[i].fd], f) == One(SOCK_FD_BASE <= f < next) {
      CountAt(Fds(s), i, f);
      CountPush(q, s[i].fd, f);
      assert Numbers(s, r, q, f) == One(SOCK_FD_BASE <= f < next);
    }
  }

  lemma RecycledFd(s: seq<Sock>, r: seq<nat>, q: seq<nat>, next: nat, a: nat)
    requires Numbered(s, r, q, next) && a < |q|
    ensures Numbered(s, r + [q[a]], Without(q, a), next)
  {
    forall f: nat ensures Numbers(s, r + [q[a]], Without(q, a), f) == One(SOCK_FD_BASE <= f < next) {
      CountPush(r, q[a], f);
      CountAt(q, a, f);
      assert Numbers(s, r, q, f) == One(SOCK_FD_BASE <= f < next);
    }
  }

  lemma PoolsWithout(s: seq<Sock>, i: nat)
    requires Pools(s) && i < |s|
    ensures Pools(Without(s, i))
  {
    var w := Without(s, i);
    forall j | 0 <= j < |w| ensures PoolOk(w[j]) { assert w[j] == s[if j < i then j else j + 1]; }
  }
}

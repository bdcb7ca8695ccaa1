/** The token game behind the scheduler.  Each live thread is one token.  A CPU is observed only
    through the thread it is due to run and the runnable thread it is about to enqueue; the
    scheduler's steps move tokens between those places, the queues and sleep. */
module SchedTokens {
  import opened Wrappers
  import opened SchedState

  datatype Seat = Seat(due: Option<Tid>, hand: Option<Tid>)

  datatype Token = Token(st: RunState, home: Cpu)

  datatype Board = Board(seats: seq<Seat>, queues: seq<seq<Tid>>, tokens: map<Tid, Token>)

  predicate Runnable(st: RunState) {
    st == Ready || st == Running
  }

  predicate NoRepeat(q: seq<Tid>) {
    forall i, j :: 0 <= i < j < |q| ==> q[i] != q[j]
  }

  predicate DueHome(v: Board, c: Cpu)
    requires c < |v.seats| == |v.queues|
  {
    v.seats[c].due.Some? ==>
      var t := v.seats[c].due.value;
      t in v.tokens && v.tokens[t].home == c && Runnable(v.tokens[t].st) && t !in v.queues[c]
  }

  predicate QueueHome(v: Board, c: Cpu)
    requires c < |v.queues|
  {
    && NoRepeat(v.queues[c])
    && forall t :: t in v.queues[c] ==> t in v.tokens && v.tokens[t].home == c && Runnable(v.tokens[t].st)
  }

  predicate HandFree(v: Board, c: Cpu)
    requires c < |v.seats| == |v.queues|
  {
    v.seats[c].hand.Some? ==>
      var t := v.seats[c].hand.value;
      && t in v.tokens && v.tokens[t].home < |v.seats| && Runnable(v.tokens[t].st)
      && t !in v.queues[v.tokens[t].home] && v.seats[v.tokens[t].home].due != Some(t)
  }

  predicate InHand(v: Board, t: Tid) {
    exists c :: 0 <= c < |v.seats| && v.seats[c].hand == Some(t)
  }

  /** Some place holds the token. */
  predicate Placed(v: Board, t: Tid)
    requires |v.seats| == |v.queues| && t in v.tokens
  {
    var x := v.tokens[t];
    x.home < |v.seats| &&
    (!Runnable(x.st) || t in v.queues[x.home] || v.seats[x.home].due == Some(t) || InHand(v, t))
  }

  predicate HandsEmpty(v: Board) {
    forall c :: 0 <= c < |v.seats| ==> v.seats[c].hand == None
  }

  predicate OneHand(v: Board) {
    forall c, d :: 0 <= c < d < |v.seats| && v.seats[c].hand.Some? ==> v.seats[d].hand == None
  }

  predicate Tokens(v: Board) {
    && |v.seats| == |v.queues| && OneHand(v)
    && (forall c :: 0 <= c < |v.seats| ==> DueHome(v, c))
    && (forall c :: 0 <= c < |v.seats| ==> QueueHome(v, c))
    && (forall c :: 0 <= c < |v.seats| ==> HandFree(v, c))
    && (forall t :: t in v.tokens ==> Placed(v, t))
  }

  // ---- moves ----

  function Sit(v: Board, c: Cpu, due: Option<Tid>, hand: Option<Tid>): Board
    requires c < |v.seats|
  {
    v.(seats := v.seats[c := Seat(due, hand)])
  }

  function Become(v: Board, t: Tid, st: RunState): Board
    requires t in v.tokens
  {
    v.(tokens := v.tokens[t := v.tokens[t].(st := st)])
  }

  function Enqueue(v: Board, c: Cpu, t: Tid): Board
    requires c < |v.queues|
  {
    v.(queues := v.queues[c := v.queues[c] + [t]])
  }

  function Dequeue(v: Board, c: Cpu): Board
    requires c < |v.queues| && v.queues[c] != []
  {
    v.(queues := v.queues[c := v.queues[c][1..]])
  }

  lemma InHandKept(v: Board, v': Board, t: Tid)
    requires |v.seats| == |v'.seats|
    requires forall c :: 0 <= c < |v.seats| && v.seats[c].hand == Some(t) ==> v'.seats[c].hand == Some(t)
    ensures InHand(v, t) ==> InHand(v', t)
  {
  }

  /** A waiter marks itself Blocked, or an exiting thread Dead: the token leaves the CPU. */
  lemma Stops(v: Board, c: Cpu, t: Tid, st: RunState)
    requires Tokens(v) && c < |v.seats|
    requires v.seats[c].due == Some(t) && t in v.tokens && !Runnable(st)
    ensures Tokens(Become(Sit(v, c, None, v.seats[c].hand), t, st))
  {
    var v' := Become(Sit(v, c, None, v.seats[c].hand), t, st);
    assert DueHome(v, c);
    forall e | 0 <= e < |v.seats| ensures DueHome(v', e) { assert DueHome(v, e) && QueueHome(v, e); }
    forall e | 0 <= e < |v.seats| ensures QueueHome(v', e) { assert DueHome(v, e) && QueueHome(v, e); }
    forall e | 0 <= e < |v.seats| ensures HandFree(v', e) { assert HandFree(v, e); }
    forall u | u in v.tokens ensures Placed(v', u) { assert Placed(v, u); InHandKept(v, v', u); }
  }

  /** The CPU takes the head of its queue as the thread to run next. */
  lemma Takes(v: Board, c: Cpu)
    requires Tokens(v) && c < |v.seats|
    requires v.queues[c] != [] && v.seats[c].due == None
    ensures Tokens(Dequeue(Sit(v, c, Some(v.queues[c][0]), v.seats[c].hand), c))
  {
    var v' := Dequeue(Sit(v, c, Some(v.queues[c][0]), v.seats[c].hand), c);
    forall e | 0 <= e < |v.seats| ensures DueHome(v', e) { assert DueHome(v, e) && QueueHome(v, e); }
    forall e | 0 <= e < |v.seats| ensures QueueHome(v', e) { assert DueHome(v, e) && QueueHome(v, e); }
    forall e | 0 <= e < |v.seats| ensures HandFree(v', e) { assert HandFree(v, e); }
    forall u | u in v.tokens ensures Placed(v', u) { assert Placed(v, u); InHandKept(v, v', u); }
  }

  /** yield_current: the running thread goes to the tail, the head becomes due. */
  lemma Swaps(v: Board, c: Cpu, t: Tid)
    requires Tokens(v) && c < |v.seats|
    requires v.queues[c] != [] && v.seats[c].due == Some(t)
    ensures Tokens(Enqueue(Dequeue(Sit(v, c, Some(v.queues[c][0]), v.seats[c].hand), c), c, t))
  {
    var v' := Enqueue(Dequeue(Sit(v, c, Some(v.queues[c][0]), v.seats[c].hand), c), c, t);
    assert DueHome(v, c) && QueueHome(v, c);
    forall e | 0 <= e < |v.seats| ensures DueHome(v', e) { assert DueHome(v, e) && QueueHome(v, e); }
    forall e | 0 <= e < |v.seats| ensures QueueHome(v', e) { assert DueHome(v, e) && QueueHome(v, e); }
    forall e | 0 <= e < |v.seats| ensures HandFree(v', e) { assert HandFree(v, e); }
    forall u | u in v.tokens ensures Placed(v', u) { assert Placed(v, u); InHandKept(v, v', u); }
  }

  /** A waker or rescuer makes a Blocked thread Ready and holds its token. */
  lemma Grabs(v: Board, c: Cpu, t: Tid)
    requires Tokens(v) && c < |v.seats|
    requires t in v.tokens && v.tokens[t].st == Blocked && HandsEmpty(v)
    ensures Tokens(Become(Sit(v, c, v.seats[c].due, Some(t)), t, Ready))
  {
    var v' := Become(Sit(v, c, v.seats[c].due, Some(t)), t, Ready);
    assert Placed(v, t) && QueueHome(v, v.tokens[t].home) && DueHome(v, v.tokens[t].home);
    forall e | 0 <= e < |v.seats| ensures DueHome(v', e) { assert DueHome(v, e) && QueueHome(v, e); }
    forall e | 0 <= e < |v.seats| ensures QueueHome(v', e) { assert DueHome(v, e) && QueueHome(v, e); }
    forall e | 0 <= e < |v.seats| ensures HandFree(v', e) { assert HandFree(v, e); }
    forall u | u in v.tokens ensures Placed(v', u) { assert Placed(v, u); InHandKept(v, v', u); assert v'.seats[c].hand == Some(t); }
  }

  /** The held token goes to the tail of its home queue. */
  lemma Drops(v: Board, c: Cpu, t: Tid)
    requires Tokens(v) && c < |v.seats|
    requires v.seats[c].hand == Some(t) && t in v.tokens && v.tokens[t].home < |v.queues|
    ensures Tokens(Enqueue(Sit(v, c, v.seats[c].due, None), v.tokens[t].home, t))
  {
    var v' := Enqueue(Sit(v, c, v.seats[c].due, None), v.tokens[t].home, t);
    assert HandFree(v, c) && QueueHome(v, v.tokens[t].home);
    forall e | 0 <= e < |v.seats| ensures DueHome(v', e) { assert DueHome(v, e) && QueueHome(v, e); }
    forall e | 0 <= e < |v.seats| ensures QueueHome(v', e) { assert DueHome(v, e) && QueueHome(v, e); }
    forall e | 0 <= e < |v.seats| ensures HandFree(v', e) { assert HandFree(v, e); }
    forall u | u in v.tokens ensures Placed(v', u) { assert Placed(v, u); if u != t { InHandKept(v, v', u); } }
  }

  /** spawn installs a thread and holds its token. */
  lemma Births(v: Board, c: Cpu, t: Tid)
    requires Tokens(v) && c < |v.seats|
    requires t !in v.tokens && HandsEmpty(v)
    ensures Tokens(Sit(v, c, v.seats[c].due, Some(t)).(tokens := v.tokens[t := Token(Ready, 0)]))
  {
    var v' := Sit(v, c, v.seats[c].due, Some(t)).(tokens := v.tokens[t := Token(Ready, 0)]);
    assert QueueHome(v, 0) && DueHome(v, 0);
    assert v'.seats[c].hand == Some(t);
    forall e | 0 <= e < |v.seats| ensures DueHome(v', e) { assert DueHome(v, e) && QueueHome(v, e); }
    forall e | 0 <= e < |v.seats| ensures QueueHome(v', e) { assert DueHome(v, e) && QueueHome(v, e); }
    forall e | 0 <= e < |v.seats| ensures HandFree(v', e) { assert HandFree(v, e); }
    forall u | u in v.tokens ensures Placed(v', u) { assert Placed(v, u); InHandKept(v, v', u); }
  }

  /** spawn chooses the newborn's home. */
  lemma Settles(v: Board, c: Cpu, t: Tid, q: Cpu)
    requires Tokens(v) && c < |v.seats|
    requires v.seats[c].hand == Some(t) && t in v.tokens && q < |v.seats|
    ensures Tokens(v.(tokens := v.tokens[t := v.tokens[t].(home := q)]))
  {
    var v' := v.(tokens := v.tokens[t := v.tokens[t].(home := q)]);
    assert HandFree(v, c) && QueueHome(v, q) && DueHome(v, q);
    forall e | 0 <= e < |v.seats| ensures DueHome(v', e) { assert DueHome(v, e) && QueueHome(v, e); }
    forall e | 0 <= e < |v.seats| ensures QueueHome(v', e) { assert DueHome(v, e) && QueueHome(v, e); }
    forall e | 0 <= e < |v.seats| ensures HandFree(v', e) { assert HandFree(v, e); }
    forall u | u in v.tokens ensures Placed(v', u) { assert Placed(v, u); InHandKept(v, v', u); assert v'.seats[c].hand == Some(t); }
  }
}

/** The connection pool as the object its callers share. Each method is the code of one thread;
    between two of its atomic actions it yields to every other thread, and the ghost state records
    that what happened is a run of the step system in SnmpPool. */
module SnmpRepository {
  import opened SnmpPool
  import opened Runs

  /** What acquire gives its caller. Blocked means the receive has not completed yet. */
  datatype Acquired = Got(conn: Conn) | PoolClosed | Blocked

  // ----- what other threads can do meanwhile

  /** Labels of every thread but operation op. */
  ghost function NotOf(op: nat): Label -> bool {
    (a: Label) => a.Call? || OfCloser(a) || a.op != op
  }

  ghost function NotOfCloser(): Label -> bool { (a: Label) => !OfCloser(a) }

  ghost function SameOp(op: nat, pc: Pc): State -> bool {
    (s: State) => op < |s.ops| && s.ops[op] == pc
  }

  lemma OthersStep(s: State, a: Label, op: nat)
    requires Enabled(s, a) && NotOf(op)(a) && op < |s.ops|
    ensures op < |Do(s, a).ops| && Do(s, a).ops[op] == s.ops[op]
  {
  }

  /** Other threads leave an operation where it stands. */
  lemma OthersKeepOp(s: State, t: State, op: nat)
    requires Reaches(Acts(), NotOf(op), s, t) && op < |s.ops|
    ensures op < |t.ops| && t.ops[op] == s.ops[op]
  {
    forall u, a, v | SameOp(op, s.ops[op])(u) && NotOf(op)(a) && Acts()(u, a, v) ensures SameOp(op, s.ops[op])(v) {
      OthersStep(u, a, op);
    }
    ReachesInduction(Acts(), NotOf(op), s, t, SameOp(op, s.ops[op]));
  }

  ghost function SameCloser(closer: Closer): State -> bool {
    (s: State) => s.closer == closer
  }

  lemma OthersKeepCloser(s: State, t: State)
    requires Reaches(Acts(), NotOfCloser(), s, t)
    ensures t.closer == s.closer
  {
    forall u, a, v | SameCloser(s.closer)(u) && NotOfCloser()(a) && Acts()(u, a, v) ensures SameCloser(s.closer)(v) {
      assert !OfCloser(a) && v == Do(u, a);
    }
    ReachesInduction(Acts(), NotOfCloser(), s, t, SameCloser(s.closer));
  }

  ghost function Shrunk(size: nat): State -> bool {
    (s: State) => !s.chanOpen && |s.buffer| <= size
  }

  /** Once the channel is closed it stays closed, and its buffer only shrinks. */
  lemma ClosedChannelShrinks(s: State, t: State)
    requires Leads(s, t) && !s.chanOpen
    ensures !t.chanOpen && |t.buffer| <= |s.buffer|
  {
    forall u, a, v | Shrunk(|s.buffer|)(u) && Any<Label>()(a) && Acts()(u, a, v) ensures Shrunk(|s.buffer|)(v) {
      ClosedStep(u, a);
    }
    ReachesInduction(Acts(), Any(), s, t, Shrunk(|s.buffer|));
  }

  lemma ClosedStep(s: State, a: Label)
    requires Enabled(s, a) && !s.chanOpen
    ensures !Do(s, a).chanOpen && |Do(s, a).buffer| <= |s.buffer|
  {
  }

  class SnmpRepository {
    var pool: seq<Conn>
    var chanOpen: bool
    var closed: bool
    var draining: bool    // whether a call to Close is under way, inside sync.Once
    var closes: seq<nat>  // how often each connection's socket was closed
    ghost var s: State

    ghost predicate Valid()
      reads this
    {
      Inv(s) && Mirrors()
    }

    /** The object's fields are those of the state. */
    ghost predicate Mirrors()
      reads this
    {
      && pool == s.buffer && chanOpen == s.chanOpen && closed == s.flag && closes == s.closes
      && draining == (s.closer.FlagSet? || s.closer.Draining?)
    }

    /** The seed connection, then connections until one fails to open or the pool is full;
        a limit below one becomes the default. opens(i) says whether connection i can be opened. */
    constructor (maxConcurrent: int, opens: nat -> bool)
      ensures Valid() && Init(s)
      ensures s.limit == if maxConcurrent <= 0 then DEFAULT_MAX_CONCURRENT else maxConcurrent
      ensures forall i :: 1 <= i < |pool| ==> opens(i)
      ensures |pool| < DEFAULT_POOL_SIZE ==> !opens(|pool|)
    {
      var conns: seq<Conn> := [0];
      var i := 1;
      while i < DEFAULT_POOL_SIZE && opens(i)
        invariant 1 <= i <= DEFAULT_POOL_SIZE
        invariant conns == FirstConns(i)
        invariant forall k :: 1 <= k < i ==> opens(k)
      {
        conns := conns + [i];
        i := i + 1;
      }
      pool, chanOpen, closed, draining, closes := conns, true, false, false, seq(i, _ => 0);
      s := State(if maxConcurrent <= 0 then DEFAULT_MAX_CONCURRENT else maxConcurrent,
                 conns, true, false, 0, [], NotCalled, seq(i, _ => 0));
      new;
      InitInv(s);
    }

    /** Records one atomic action in the ghost state of a thread that started in s0. */
    ghost method Perform(s0: State, a: Label)
      requires Inv(s) && Leads(s0, s) && Enabled(s, a)
      modifies this`s
      ensures s == Do(old(s), a) && Inv(s) && Leads(s0, s)
    {
      ReachesNext(Acts(), Any(), s0, s, a, Do(s, a));
      StepInv(s, a);
      s := Do(s, a);
    }

    /** The threads with these labels run for a while. Its callers may rely only on its contract. */
    method Others(ghost s0: State, ghost may: Label -> bool)
      requires Valid() && Leads(s0, s)
      modifies this
      ensures Valid() && Leads(s0, s) && Reaches(Acts(), may, old(s), s)
    {
      ReachesItself(Acts(), may, s);
    }

    /** Lets every thread but operation op run for a while. */
    method YieldFromOp(ghost s0: State, ghost op: nat)
      requires Valid() && Leads(s0, s) && op < |s.ops|
      modifies this
      ensures Valid() && Leads(s0, s) && op < |s.ops| && s.ops[op] == old(s.ops[op])
    {
      ghost var before := s;
      Others(s0, NotOf(op));
      OthersKeepOp(before, s, op);
    }

    /** Lets every thread but the one running Close run for a while. */
    method YieldFromClose(ghost s0: State)
      requires Valid() && Leads(s0, s)
      modifies this
      ensures Valid() && Leads(s0, s) && s.closer == old(s.closer)
      ensures !old(chanOpen) ==> !chanOpen && |pool| <= |old(pool)|
    {
      ghost var before := s;
      Others(s0, NotOfCloser());
      OthersKeepCloser(before, s);
      if !before.chanOpen {
        ReachesItself(Acts(), Any(), before);
        ReachesMore(Acts(), Any(), NotOfCloser(), before, before, s);
        ClosedChannelShrinks(before, s);
      }
    }

    /** Takes a connection from the pool, or reports that the pool was closed. */
    method Acquire(ghost op: nat) returns (r: Acquired)
      requires Valid() && op < |s.ops| && s.ops[op].Admitted?
      modifies this
      ensures Valid() && Leads(old(s), s) && op < |s.ops|
      ensures old(closed) ==> r.PoolClosed?
      ensures r.Got? ==> s.ops[op] == Using(r.conn) && r.conn < |closes| && closes[r.conn] == 0
      ensures r.PoolClosed? ==> s.ops[op] == Leaving(false) && closed
      ensures r.Blocked? ==>
        && s.ops[op].Waiting?
        && (s.closer.FlagSet? || exists j :: 0 <= j < |s.ops| && j != op && HasConn(s.ops[j]))
    {
      ghost var s0 := s;
      ReachesItself(Acts(), Any(), s);
      if closed {
        Perform(s0, LoadInAcquire(op));
        return PoolClosed;
      }
      Perform(s0, LoadInAcquire(op));
      YieldFromOp(s0, op);
      r := ReceiveConn(s0, op);
    }

    method ReceiveConn(ghost s0: State, ghost op: nat) returns (r: Acquired)
      requires Valid() && Leads(s0, s) && op < |s.ops| && s.ops[op].Waiting?
      modifies this
      ensures Valid() && Leads(s0, s) && op < |s.ops|
      ensures r.Got? ==> s.ops[op] == Using(r.conn) && r.conn < |closes| && closes[r.conn] == 0
      ensures r.PoolClosed? ==> s.ops[op] == Leaving(false) && closed
      ensures r.Blocked? ==>
        && s.ops[op].Waiting?
        && (s.closer.FlagSet? || exists j :: 0 <= j < |s.ops| && j != op && HasConn(s.ops[j]))
    {
      if pool != [] {
        r := Got(pool[0]);
        pool := pool[1..];
        Perform(s0, Receive(op));
        HeldIsOpen(s, op);
      } else if !chanOpen {
        r := PoolClosed;
        Perform(s0, Receive(op));
      } else {
        r := Blocked;
        ghost var j := BlockedReceiveHasHolder(s, op);
      }
    }

    method CloseReleased(ghost s0: State, ghost op: nat, conn: Conn)
      requires Inv(s) && Leads(s0, s) && Mirrors() && Enabled(s, Discard(op)) && conn == s.ops[op].conn
      modifies this
      ensures Valid() && s == Do(old(s), Discard(op)) && Leads(s0, s)
      ensures closes == old(closes)[conn := old(closes)[conn] + 1]
    {
      closes := closes[conn := closes[conn] + 1];
      Perform(s0, Discard(op));
    }

    method CloseDrained(ghost s0: State, conn: Conn)
      requires Inv(s) && Leads(s0, s) && Mirrors() && Enabled(s, DrainClose) && conn == s.closer.hand[0]
      modifies this
      ensures Valid() && s == Do(old(s), DrainClose) && Leads(s0, s)
      ensures closes == old(closes)[conn := old(closes)[conn] + 1]
    {
      closes := closes[conn := closes[conn] + 1];
      Perform(s0, DrainClose);
    }

    /** Gives a connection back. It closes the connection itself when the pool is already closed,
        also when the channel is closed between the check and the send. It never blocks. */
    method Release(ghost op: nat, conn: Conn)
      requires Valid() && op < |s.ops| && s.ops[op] == Returning(conn)
      modifies this
      ensures Valid() && Leads(old(s), s) && op < |s.ops| && s.ops[op] == Leaving(true)
    {
      ghost var s0 := s;
      ReachesItself(Acts(), Any(), s);
      if closed {
        Perform(s0, LoadInRelease(op));
        DiscardConn(s0, op, conn);
        return;
      }
      Perform(s0, LoadInRelease(op));
      YieldFromOp(s0, op);
      SendBack(s0, op, conn);
    }

    /** Sends on the pool channel, which has room; on a closed channel the send panics and the panic is recovered. */
    method SendBack(ghost s0: State, ghost op: nat, conn: Conn)
      requires Valid() && Leads(s0, s) && op < |s.ops| && s.ops[op] == Sending(conn)
      modifies this
      ensures Valid() && Leads(s0, s) && op < |s.ops| && s.ops[op] == Leaving(true)
    {
      SendNeverBlocks(s, op);
      if chanOpen {
        pool := pool + [conn];
        Perform(s0, Send(op));
      } else {
        Perform(s0, Send(op));
        DiscardConn(s0, op, conn);
      }
    }

    method DiscardConn(ghost s0: State, ghost op: nat, conn: Conn)
      requires Valid() && Leads(s0, s) && op < |s.ops| && s.ops[op] == Discarding(conn)
      modifies this
      ensures Valid() && Leads(s0, s) && op < |s.ops| && s.ops[op] == Leaving(true)
    {
      YieldFromOp(s0, op);
      CloseReleased(s0, op, conn);
    }

    /** Closes the pool once: the flag, then the channel, then every connection still buffered.
        Operations keep running between any two of its actions. Not done means that another call is
        still closing the pool, and this one waits for it inside sync.Once. */
    method Close() returns (done: bool)
      requires Valid()
      modifies this
      ensures Valid() && Leads(old(s), s)
      ensures done ==> s.closer.Drained? && closed && !chanOpen && pool == []
      ensures !old(s).closer.NotCalled? ==> s == old(s) && (done <==> s.closer.Drained?)
      ensures old(s).closer.NotCalled? ==> done
    {
      ghost var s0 := s;
      ReachesItself(Acts(), Any(), s);
      if closed {
        done := !chanOpen && !draining;
        return;
      }
      CloseFirst(s0);
      done := true;
    }

    /** The body of sync.Once. */
    method CloseFirst(ghost s0: State)
      requires Valid() && Leads(s0, s) && s.closer.NotCalled?
      modifies this
      ensures Valid() && Leads(s0, s) && s.closer.Drained? && closed && !chanOpen && pool == []
    {
      CloseDoor(s0);
      DrainAll(s0);
      draining := false;
      Perform(s0, DrainEnd);
    }

    /** The flag, then the channel. */
    method CloseDoor(ghost s0: State)
      requires Valid() && Leads(s0, s) && s.closer.NotCalled?
      modifies this
      ensures Valid() && Leads(s0, s) && s.closer == Draining([]) && !chanOpen && closed
    {
      closed, draining := true, true;
      Perform(s0, SetFlag);
      YieldFromClose(s0);
      chanOpen := false;
      Perform(s0, CloseChannel);
      YieldFromClose(s0);
    }

    method DrainAll(ghost s0: State)
      requires Valid() && Leads(s0, s) && s.closer == Draining([]) && !chanOpen
      modifies this
      ensures Valid() && Leads(s0, s) && s.closer == Draining([]) && !chanOpen && pool == []
    {
      while pool != []
        invariant Valid() && Leads(s0, s) && s.closer == Draining([]) && !chanOpen
        decreases |pool|
      {
        DrainOne(s0);
      }
    }

    method DrainOne(ghost s0: State)
      requires Valid() && Leads(s0, s) && s.closer == Draining([]) && pool != [] && !chanOpen
      modifies this
      ensures Valid() && Leads(s0, s) && s.closer == Draining([]) && !chanOpen
      ensures |pool| < |old(pool)|
    {
      var conn := pool[0];
      pool := pool[1..];
      Perform(s0, DrainTake);
      YieldFromClose(s0);
      CloseDrained(s0, conn);
      YieldFromClose(s0);
    }
  }
}

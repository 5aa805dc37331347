/** The SNMP connection pool as a step system: a semaphore, a buffered channel of
    connections, an atomic closed flag, and a Close that runs against operations in flight.
    Every atomic action of an operation or of Close is one labelled step. */
module SnmpPool {
  import opened Tally
  import opened Runs

  type Conn = nat

  const DEFAULT_POOL_SIZE: nat := 4
  const DEFAULT_MAX_CONCURRENT: nat := 5

  /** Where one Get, Walk or BulkWalk call stands. A failed SNMP exchange takes the same path
      as a successful one, because the connection is returned by a deferred call. */
  datatype Pc =
    | Arrived                 // about to send on the semaphore channel
    | Admitted                // holds a semaphore slot, about to load the closed flag
    | Waiting                 // about to receive from the pool channel
    | Using(conn: Conn)       // SNMP exchange in progress
    | Returning(conn: Conn)   // about to load the closed flag in release
    | Sending(conn: Conn)     // saw the flag unset, about to send on the pool channel
    | Discarding(conn: Conn)  // about to close the connection itself
    | Leaving(served: bool)   // about to give the semaphore slot back
    | Finished(served: bool)  // served is false for the "SNMP pool closed" error

  /** Where the single effective Close call stands. */
  datatype Closer =
    | NotCalled
    | FlagSet
    | Draining(hand: seq<Conn>)
    | Drained

  /** Connections are numbered 0..|closes|; closes[c] counts how often c was closed. */
  datatype State = State(
    limit: nat,
    buffer: seq<Conn>,
    chanOpen: bool,
    flag: bool,
    sem: nat,
    ops: seq<Pc>,
    closer: Closer,
    closes: seq<nat>)

  datatype Label =
    | Call
    | Enter(op: nat)
    | LoadInAcquire(op: nat)
    | Receive(op: nat)
    | Answer(op: nat)
    | LoadInRelease(op: nat)
    | Send(op: nat)
    | Discard(op: nat)
    | Leave(op: nat)
    | SetFlag
    | CloseChannel
    | DrainTake
    | DrainClose
    | DrainEnd

  /** The connections 0..n in channel order. */
  function FirstConns(n: nat): (conns: seq<Conn>)
    ensures |conns| == n && forall i :: 0 <= i < n ==> conns[i] == i
  {
    if n == 0 then [] else FirstConns(n - 1) + [n - 1]
  }

  ghost predicate Init(s: State) {
    && 1 <= |s.closes| <= DEFAULT_POOL_SIZE
    && s.buffer == FirstConns(|s.closes|)
    && (forall c :: 0 <= c < |s.closes| ==> s.closes[c] == 0)
    && s.limit >= 1
    && s.chanOpen && !s.flag && s.sem == 0 && s.ops == [] && s.closer == NotCalled
  }

  predicate Enabled(s: State, a: Label) {
    match a
    case Call => true
    case Enter(i) => i < |s.ops| && s.ops[i].Arrived? && s.sem < s.limit
    case LoadInAcquire(i) => i < |s.ops| && s.ops[i].Admitted?
    case Receive(i) => i < |s.ops| && s.ops[i].Waiting? && (s.buffer != [] || !s.chanOpen)
    case Answer(i) => i < |s.ops| && s.ops[i].Using?
    case LoadInRelease(i) => i < |s.ops| && s.ops[i].Returning?
    // A send on a closed channel panics at once; on an open one it blocks while the buffer is full.
    case Send(i) => i < |s.ops| && s.ops[i].Sending? && (!s.chanOpen || |s.buffer| < DEFAULT_POOL_SIZE)
    case Discard(i) => i < |s.ops| && s.ops[i].Discarding? && s.ops[i].conn < |s.closes|
    case Leave(i) => i < |s.ops| && s.ops[i].Leaving? && s.sem > 0
    case SetFlag => s.closer.NotCalled?
    case CloseChannel => s.closer.FlagSet?
    case DrainTake => s.closer == Draining([]) && s.buffer != []
    case DrainClose => s.closer.Draining? && |s.closer.hand| == 1 && s.closer.hand[0] < |s.closes|
    case DrainEnd => s.closer == Draining([]) && s.buffer == []
  }

  function Move(s: State, i: nat, pc: Pc): State
    requires i < |s.ops|
  {
    s.(ops := s.ops[i := pc])
  }

  function CloseConn(s: State, c: Conn): State
    requires c < |s.closes|
  {
    s.(closes := s.closes[c := s.closes[c] + 1])
  }

  function Do(s: State, a: Label): State
    requires Enabled(s, a)
  {
    match a
    case Call => s.(ops := s.ops + [Arrived])
    case Enter(i) => Move(s, i, Admitted).(sem := s.sem + 1)
    case LoadInAcquire(i) => Move(s, i, if s.flag then Leaving(false) else Waiting)
    case Receive(i) =>
      if s.buffer == [] then Move(s, i, Leaving(false))
      else Move(s, i, Using(s.buffer[0])).(buffer := s.buffer[1..])
    case Answer(i) => Move(s, i, Returning(s.ops[i].conn))
    case LoadInRelease(i) =>
      Move(s, i, if s.flag then Discarding(s.ops[i].conn) else Sending(s.ops[i].conn))
    case Send(i) =>
      if s.chanOpen then Move(s, i, Leaving(true)).(buffer := s.buffer + [s.ops[i].conn])
      else Move(s, i, Discarding(s.ops[i].conn))
    case Discard(i) => Move(CloseConn(s, s.ops[i].conn), i, Leaving(true))
    case Leave(i) => Move(s, i, Finished(s.ops[i].served)).(sem := s.sem - 1)
    case SetFlag => s.(flag := true, closer := FlagSet)
    case CloseChannel => s.(chanOpen := false, closer := Draining([]))
    case DrainTake => s.(closer := Draining([s.buffer[0]]), buffer := s.buffer[1..])
    case DrainClose => CloseConn(s, s.closer.hand[0]).(closer := Draining([]))
    case DrainEnd => s.(closer := Drained)
  }

  ghost function Acts(): (State, Label, State) -> bool {
    (s: State, a: Label, t: State) => Enabled(s, a) && t == Do(s, a)
  }

  /** Some interleaving of operations and Close leads from s to t. */
  ghost predicate Leads(s: State, t: State) {
    Reaches(Acts(), Any(), s, t)
  }

  // ----- where a connection is

  predicate HasConn(pc: Pc) {
    pc.Using? || pc.Returning? || pc.Sending? || pc.Discarding?
  }

  predicate Refused(pc: Pc) {
    (pc.Leaving? || pc.Finished?) && !pc.served
  }

  function Is(c: Conn): Conn -> nat { (x: Conn) => if x == c then 1 else 0 }

  function Holds(c: Conn): Pc -> nat {
    (pc: Pc) => if HasConn(pc) && pc.conn == c then 1 else 0
  }

  function HoldsAny(): Pc -> nat { (pc: Pc) => if HasConn(pc) then 1 else 0 }

  function HasSlot(): Pc -> nat {
    (pc: Pc) => if pc.Arrived? || pc.Finished? then 0 else 1
  }

  function Count(): nat -> nat { (n: nat) => n }

  function Hand(s: State): seq<Conn> {
    if s.closer.Draining? then s.closer.hand else []
  }

  /** How many places connection c is in: buffered, held by an operation, in the drainer's hand, closed. */
  ghost function Places(s: State, c: Conn): nat
    requires c < |s.closes|
  {
    Sum(s.buffer, Is(c)) + Sum(s.ops, Holds(c)) + Sum(Hand(s), Is(c)) + s.closes[c]
  }

  /** The number of all connections, wherever they are. */
  ghost function Total(s: State): nat {
    |s.buffer| + Sum(s.ops, HoldsAny()) + |Hand(s)| + Sum(s.closes, Count())
  }

  ghost predicate Numbered(s: State) {
    && 1 <= |s.closes| <= DEFAULT_POOL_SIZE
    && (forall i :: 0 <= i < |s.buffer| ==> s.buffer[i] < |s.closes|)
    && (forall i :: 0 <= i < |s.ops| && HasConn(s.ops[i]) ==> s.ops[i].conn < |s.closes|)
    && |Hand(s)| <= 1 && (Hand(s) != [] ==> Hand(s)[0] < |s.closes|)
  }

  ghost predicate CloseOrder(s: State) {
    && s.flag == !s.closer.NotCalled?
    && s.chanOpen == (s.closer.NotCalled? || s.closer.FlagSet?)
    && (forall c :: 0 <= c < |s.closes| && s.closes[c] > 0 ==> s.flag)
    && (forall i :: 0 <= i < |s.ops| && s.ops[i].Discarding? ==> s.flag)
    && (s.closer.Drained? ==> s.buffer == [])
    && (forall i :: 0 <= i < |s.ops| && Refused(s.ops[i]) ==> s.flag)
  }

  ghost predicate Inv(s: State) {
    && Numbered(s)
    && CloseOrder(s)
    && (forall c :: 0 <= c < |s.closes| ==> Places(s, c) == 1)
    && Total(s) == |s.closes|
    && s.sem == Sum(s.ops, HasSlot()) <= s.limit
    && 1 <= s.limit
  }

  // ----- the invariant holds over every run

  lemma {:induction false} CountRange(n: nat, c: nat)
    ensures Sum(FirstConns(n), Is(c)) == if c < n then 1 else 0
  {
    if n == 0 {
    } else {
      CountRange(n - 1, c);
      SumAppend<Conn>(FirstConns(n - 1), n - 1, Is(c));
    }
  }

  lemma InitInv(s: State)
    requires Init(s)
    ensures Inv(s)
  {
    var n := |s.closes|;
    forall c | 0 <= c < n ensures Places(s, c) == 1 {
      CountRange(n, c);
    }
    SumZero(s.closes, Count());
  }

  /** Labels of Close, which leave the operations alone. */
  predicate OfCloser(a: Label) {
    a.SetFlag? || a.CloseChannel? || a.DrainTake? || a.DrainClose? || a.DrainEnd?
  }

  lemma PlacesOfCloser(s: State, a: Label, c: Conn)
    requires Numbered(s) && CloseOrder(s) && Enabled(s, a) && c < |s.closes| && OfCloser(a)
    ensures Places(Do(s, a), c) == Places(s, c)
  {
    if a.DrainTake? {
      SumTail(s.buffer, Is(c));
      SumTail([s.buffer[0]], Is(c));
    } else if a.DrainClose? {
      SumTail(s.closer.hand, Is(c));
    }
  }

  lemma PlacesOfReceive(s: State, i: nat, c: Conn)
    requires Numbered(s) && Enabled(s, Receive(i)) && c < |s.closes|
    ensures Places(Do(s, Receive(i)), c) == Places(s, c)
  {
    SumUpdate(s.ops, i, Do(s, Receive(i)).ops[i], Holds(c));
    if s.buffer != [] {
      SumTail(s.buffer, Is(c));
    }
  }

  lemma PlacesOfSend(s: State, i: nat, c: Conn)
    requires Numbered(s) && Enabled(s, Send(i)) && c < |s.closes|
    ensures Places(Do(s, Send(i)), c) == Places(s, c)
  {
    SumUpdate(s.ops, i, Do(s, Send(i)).ops[i], Holds(c));
    SumAppend(s.buffer, s.ops[i].conn, Is(c));
  }

  lemma PlacesOfOp(s: State, a: Label, c: Conn)
    requires Numbered(s) && Enabled(s, a) && c < |s.closes| && !OfCloser(a) && !a.Call? && !a.Receive? && !a.Send?
    ensures Places(Do(s, a), c) == Places(s, c)
  {
    SumUpdate(s.ops, a.op, Do(s, a).ops[a.op], Holds(c));
  }

  lemma PlacesStep(s: State, a: Label, c: Conn)
    requires Numbered(s) && CloseOrder(s) && Enabled(s, a) && c < |s.closes|
    ensures Places(Do(s, a), c) == Places(s, c)
  {
    if a.Call? {
      SumAppend(s.ops, Arrived, Holds(c));
    } else if OfCloser(a) {
      PlacesOfCloser(s, a, c);
    } else if a.Receive? {
      PlacesOfReceive(s, a.op, c);
    } else if a.Send? {
      PlacesOfSend(s, a.op, c);
    } else {
      PlacesOfOp(s, a, c);
    }
  }

  lemma NumberedStep(s: State, a: Label)
    requires Numbered(s) && Enabled(s, a)
    ensures Numbered(Do(s, a)) && |Do(s, a).closes| == |s.closes|
  {
  }

  lemma CloseOrderStep(s: State, a: Label)
    requires Numbered(s) && CloseOrder(s) && Enabled(s, a)
    ensures CloseOrder(Do(s, a))
  {
  }

  lemma TotalOfCloser(s: State, a: Label)
    requires Numbered(s) && CloseOrder(s) && Enabled(s, a) && OfCloser(a)
    ensures Total(Do(s, a)) == Total(s)
  {
    if a.DrainClose? {
      var c := s.closer.hand[0];
      SumUpdate(s.closes, c, s.closes[c] + 1, Count());
    }
  }

  lemma TotalOfDiscard(s: State, i: nat)
    requires Enabled(s, Discard(i))
    ensures Total(Do(s, Discard(i))) == Total(s)
  {
    var c := s.ops[i].conn;
    SumUpdate(s.ops, i, Leaving(true), HoldsAny());
    SumUpdate(s.closes, c, s.closes[c] + 1, Count());
  }

  lemma TotalStep(s: State, a: Label)
    requires Numbered(s) && CloseOrder(s) && Enabled(s, a)
    ensures Total(Do(s, a)) == Total(s)
  {
    if a.Call? {
      SumAppend(s.ops, Arrived, HoldsAny());
    } else if OfCloser(a) {
      TotalOfCloser(s, a);
    } else if a.Discard? {
      TotalOfDiscard(s, a.op);
    } else {
      SumUpdate(s.ops, a.op, Do(s, a).ops[a.op], HoldsAny());
    }
  }

  lemma SlotOfOp(s: State, a: Label)
    requires Enabled(s, a) && s.sem == Sum(s.ops, HasSlot()) <= s.limit && !OfCloser(a) && !a.Call?
    ensures Do(s, a).sem == Sum(Do(s, a).ops, HasSlot()) <= s.limit
  {
    SumUpdate(s.ops, a.op, Do(s, a).ops[a.op], HasSlot());
  }

  lemma SlotStep(s: State, a: Label)
    requires Enabled(s, a) && s.sem == Sum(s.ops, HasSlot()) <= s.limit
    ensures Do(s, a).sem == Sum(Do(s, a).ops, HasSlot()) <= s.limit
  {
    if a.Call? {
      SumAppend(s.ops, Arrived, HasSlot());
    } else if !OfCloser(a) {
      SlotOfOp(s, a);
    }
  }

  lemma StepInv(s: State, a: Label)
    requires Inv(s) && Enabled(s, a)
    ensures Inv(Do(s, a))
  {
    forall c | 0 <= c < |s.closes| ensures Places(Do(s, a), c) == 1 {
      PlacesStep(s, a, c);
    }
    NumberedStep(s, a);
    CloseOrderStep(s, a);
    TotalStep(s, a);
    SlotStep(s, a);
  }

  ghost function InvHolds(): State -> bool { (s: State) => Inv(s) }

  lemma RunInv(s: State, t: State)
    requires Inv(s) && Leads(s, t)
    ensures Inv(t)
  {
    forall s, a, t | InvHolds()(s) && Any<Label>()(a) && Acts()(s, a, t) ensures InvHolds()(t) {
      StepInv(s, a);
    }
    ReachesInduction(Acts(), Any(), s, t, InvHolds());
  }

  // ----- what every reachable state satisfies

  /** Over every run each connection is in exactly one place, and an operation that uses
      a connection uses one that was never closed and that nothing else can reach. */
  lemma ExclusiveUse(s: State, t: State, i: nat, c: Conn)
    requires Init(s) && Leads(s, t)
    requires i < |t.ops| && HasConn(t.ops[i]) && t.ops[i].conn == c
    ensures c < |t.closes| && t.closes[c] == 0
    ensures c !in t.buffer && c !in Hand(t)
    ensures forall j :: 0 <= j < |t.ops| && j != i && HasConn(t.ops[j]) ==> t.ops[j].conn != c
  {
    InitInv(s);
    RunInv(s, t);
    HolderExcludesRest(t, i, c);
    HolderIsOnly(t, i, c);
  }

  lemma HolderExcludesRest(t: State, i: nat, c: Conn)
    requires Inv(t) && i < |t.ops| && HasConn(t.ops[i]) && t.ops[i].conn == c
    ensures c < |t.closes| && t.closes[c] == 0 && c !in t.buffer && c !in Hand(t)
  {
    assert Places(t, c) == 1;
    SumMember(t.ops, i, Holds(c));
    if c in t.buffer {
      var k :| 0 <= k < |t.buffer| && t.buffer[k] == c;
      SumMember(t.buffer, k, Is(c));
    }
  }

  lemma HolderIsOnly(t: State, i: nat, c: Conn)
    requires Inv(t) && i < |t.ops| && HasConn(t.ops[i]) && t.ops[i].conn == c
    ensures forall j :: 0 <= j < |t.ops| && j != i && HasConn(t.ops[j]) ==> t.ops[j].conn != c
  {
    assert Places(t, c) == 1;
    forall j | 0 <= j < |t.ops| && j != i && HasConn(t.ops[j]) ensures t.ops[j].conn != c {
      if t.ops[j].conn == c {
        SumTwo(t.ops, if i < j then i else j, if i < j then j else i, Holds(c));
      }
    }
  }

  /** Once Close has drained the channel and no operation holds a connection,
      every connection has been closed exactly once. */
  lemma ClosedExactlyOnce(s: State, t: State)
    requires Init(s) && Leads(s, t)
    requires t.closer.Drained?
    requires forall i :: 0 <= i < |t.ops| ==> t.ops[i].Finished?
    ensures |t.closes| == |s.closes| && forall c :: 0 <= c < |t.closes| ==> t.closes[c] == 1
  {
    InitInv(s);
    RunInv(s, t);
    RunSize(s, t);
    RestIsClosed(t);
  }

  /** A held connection is open. */
  lemma HeldIsOpen(s: State, i: nat)
    requires Inv(s) && i < |s.ops| && HasConn(s.ops[i])
    ensures s.ops[i].conn < |s.closes| && s.closes[s.ops[i].conn] == 0
  {
    assert Places(s, s.ops[i].conn) == 1;
    SumMember(s.ops, i, Holds(s.ops[i].conn));
  }

  ghost function SameSize(n: nat, limit: nat): State -> bool {
    (s: State) => |s.closes| == n && s.limit == limit
  }

  lemma RunSize(s: State, t: State)
    requires Leads(s, t)
    ensures |t.closes| == |s.closes| && t.limit == s.limit
  {
    ReachesInduction(Acts(), Any(), s, t, SameSize(|s.closes|, s.limit));
  }

  /** An operation is refused with the "SNMP pool closed" error only after Close was called. */
  lemma RefusedOnlyWhenClosed(s: State, t: State)
    requires Init(s) && Leads(s, t)
    ensures forall i :: 0 <= i < |t.ops| && Refused(t.ops[i]) ==> !t.closer.NotCalled?
  {
    InitInv(s);
    RunInv(s, t);
  }

  /** Operations that hold a connection never outnumber the semaphore slots or the connections. */
  lemma HeldWithinLimit(s: State)
    requires Inv(s)
    ensures Sum(s.ops, HoldsAny()) <= s.sem <= s.limit
    ensures Sum(s.ops, HoldsAny()) + |s.buffer| <= |s.closes| <= DEFAULT_POOL_SIZE
  {
    SumAtMost(s.ops, HoldsAny(), HasSlot());
  }

  /** A release never blocks: the send on the pool channel is always enabled. */
  lemma SendNeverBlocks(s: State, i: nat)
    requires Inv(s) && i < |s.ops| && s.ops[i].Sending?
    ensures Enabled(s, Send(i))
  {
    SumMember(s.ops, i, HoldsAny());
  }

  /** An operation blocked on the pool channel waits for another operation's connection,
      unless Close is between setting the flag and closing the channel. */
  lemma BlockedReceiveHasHolder(s: State, i: nat) returns (j: nat)
    requires Inv(s) && i < |s.ops| && s.ops[i].Waiting? && !Enabled(s, Receive(i))
    ensures s.closer.FlagSet? || (j < |s.ops| && j != i && HasConn(s.ops[j]))
  {
    j := 0;
    if !s.closer.FlagSet? {
      assert Places(s, 0) == 1;
      j := SumPositive(s.ops, Holds(0));
    }
  }

  // ----- progress

  /** Labels taken by the pool's own code, as opposed to new calls arriving from outside. */
  predicate Internal(a: Label) {
    !a.Call? && !a.SetFlag?
  }

  /** The next label of an operation that holds a slot, or None while it is blocked. */
  function NextLabel(pc: Pc, i: nat): Label
    requires !pc.Finished?
  {
    match pc
    case Arrived => Enter(i)
    case Admitted => LoadInAcquire(i)
    case Waiting => Receive(i)
    case Using(_) => Answer(i)
    case Returning(_) => LoadInRelease(i)
    case Sending(_) => Send(i)
    case Discarding(_) => Discard(i)
    case Leaving(_) => Leave(i)
  }

  lemma SlotHolderMoves(s: State, i: nat)
    requires Inv(s) && i < |s.ops|
    requires !s.ops[i].Finished? && !s.ops[i].Arrived? && !s.ops[i].Waiting?
    ensures Enabled(s, NextLabel(s.ops[i], i))
  {
    if s.ops[i].Sending? {
      SendNeverBlocks(s, i);
    } else if s.ops[i].Leaving? {
      SumMember(s.ops, i, HasSlot());
    }
  }

  /** The pool never deadlocks: while some operation is unfinished, an internal step is enabled. */
  lemma NeverDeadlocks(s: State, i: nat) returns (a: Label)
    requires Inv(s) && i < |s.ops| && !s.ops[i].Finished?
    ensures Internal(a) && Enabled(s, a)
  {
    var k := i;
    if s.ops[i].Arrived? && !Enabled(s, Enter(i)) {
      k := SumPositive(s.ops, HasSlot());
    }
    a := NextLabel(s.ops[k], k);
    if s.ops[k].Waiting? && !Enabled(s, a) {
      var j := BlockedReceiveHasHolder(s, k);
      if s.closer.FlagSet? {
        a := CloseChannel;
      } else {
        SlotHolderMoves(s, j);
        a := NextLabel(s.ops[j], j);
      }
    } else if !s.ops[k].Arrived? && !s.ops[k].Waiting? {
      SlotHolderMoves(s, k);
    }
  }

  function Rank(): Pc -> nat {
    (pc: Pc) => match pc
      case Arrived => 8
      case Admitted => 7
      case Waiting => 6
      case Using(_) => 5
      case Returning(_) => 4
      case Sending(_) => 3
      case Discarding(_) => 2
      case Leaving(_) => 1
      case Finished(_) => 0
  }

  /** What is left to do: the remaining actions of every operation and of the drainer. */
  ghost function Remaining(s: State): nat {
    Sum(s.ops, Rank()) +
    match s.closer
    case NotCalled => 0
    case FlagSet => 2 * DEFAULT_POOL_SIZE + 2
    case Draining(hand) => 2 * |s.buffer| + 1 + |hand|
    case Drained => 0
  }

  lemma CloserStepsAreBounded(s: State, a: Label)
    requires |s.buffer| <= DEFAULT_POOL_SIZE && Enabled(s, a) && OfCloser(a) && !a.SetFlag?
    ensures Remaining(Do(s, a)) < Remaining(s)
  {
  }

  lemma OpStepsAreBounded(s: State, a: Label)
    requires CloseOrder(s) && Enabled(s, a) && !OfCloser(a) && !a.Call?
    ensures Remaining(Do(s, a)) < Remaining(s)
  {
    SumUpdate(s.ops, a.op, Do(s, a).ops[a.op], Rank());
  }

  lemma InternalStepsAreBounded(s: State, a: Label)
    requires Inv(s) && Internal(a) && Enabled(s, a)
    ensures Remaining(Do(s, a)) < Remaining(s)
  {
    if OfCloser(a) {
      CloserStepsAreBounded(s, a);
    } else {
      OpStepsAreBounded(s, a);
    }
  }

  ghost function InternalLabels(): Label -> bool { (a: Label) => Internal(a) }

  /** The next internal step of a state that is not at rest. */
  lemma NextInternal(s: State) returns (a: Label)
    requires Inv(s)
    requires s.closer.FlagSet? || s.closer.Draining? || exists i :: 0 <= i < |s.ops| && !s.ops[i].Finished?
    ensures Internal(a) && Enabled(s, a)
  {
    if i :| 0 <= i < |s.ops| && !s.ops[i].Finished? {
      a := NeverDeadlocks(s, i);
    } else if s.closer.FlagSet? {
      a := CloseChannel;
    } else {
      a := if s.closer.hand != [] then DrainClose else if s.buffer != [] then DrainTake else DrainEnd;
    }
  }

  /** With Close finished and no operation under way, every connection was closed once. */
  lemma RestIsClosed(s: State)
    requires Inv(s) && s.closer.Drained? && forall i :: 0 <= i < |s.ops| ==> s.ops[i].Finished?
    ensures forall c :: 0 <= c < |s.closes| ==> s.closes[c] == 1
  {
    forall c | 0 <= c < |s.closes| ensures s.closes[c] == 1 {
      assert Places(s, c) == 1;
      SumZero(s.ops, Holds(c));
    }
  }

  /** From every reachable state some run of internal steps, of bounded length, returns every operation,
      and if Close was called it also drains the pool, so no connection is left open. */
  lemma {:induction false} EveryOperationReturns(s: State) returns (states: seq<State>)
    requires Inv(s)
    ensures IsRun(Acts(), InternalLabels(), states) && states[0] == s && |states| <= Remaining(s) + 1
    ensures var t := states[|states| - 1];
      && (forall i :: 0 <= i < |t.ops| ==> t.ops[i].Finished?)
      && (!s.closer.NotCalled? ==> t.closer.Drained? && forall c :: 0 <= c < |t.closes| ==> t.closes[c] == 1)
    decreases Remaining(s)
  {
    if (s.closer.NotCalled? || s.closer.Drained?) && forall i :: 0 <= i < |s.ops| ==> s.ops[i].Finished? {
      states := [s];
      if s.closer.Drained? {
        RestIsClosed(s);
      }
    } else {
      var a := NextInternal(s);
      StepInv(s, a);
      InternalStepsAreBounded(s, a);
      if !s.closer.NotCalled? {
        CloseStaysCalled(s, a);
      }
      var rest := EveryOperationReturns(Do(s, a));
      RunFrom(Acts(), InternalLabels(), s, a, rest);
      states := [s] + rest;
      assert states[|states| - 1] == rest[|rest| - 1];
    }
  }

  lemma CloseStaysCalled(s: State, a: Label)
    requires Enabled(s, a) && !s.closer.NotCalled?
    ensures !Do(s, a).closer.NotCalled?
  {
  }
}

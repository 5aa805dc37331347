/** The OLT registry's lifecycle protocol as a step system: a read-write lock, the entries map,
    one SNMP stack per opened connection, the lifecycle counters shared by copies of an entry,
    tracked workers, and background closers. Every atomic action is one labelled step. */
module RegistryProtocol {
  import opened Text
  import opened Tally
  import opened Runs
  import opened Olts
  import opened ChangeKeys

  /** A registry entry. Copies made by a metadata update keep stack, lifecycle and topology. */
  datatype Entry = Entry(olt: OltConfig, stack: nat, lc: Option<nat>, boardPons: map<int, int>, userId: int)

  /** An opened SNMP stack: the config its usecase was built from, and how often its pool was closed. */
  datatype Stack = Stack(config: OltConfig, closes: nat)

  /** owner is the stack the lifecycle was created for; the code does not store it. */
  datatype Lifecycle = Lifecycle(owner: nat, cancelled: bool, active: nat, wait: nat)

  /** A tracked run of fn: counted in active, then also in the wait group and running,
      then returned, then no longer active, then done. */
  datatype Phase = Counted | Running | Returned | Uncounted | Done

  /** reader is the call of GoForEach that started the worker; the code does not store it. */
  datatype Worker = Worker(stack: nat, lc: nat, phase: Phase, reader: nat)

  datatype CloserPhase = Waiting | Woken | Gone

  datatype Closer = Closer(stack: nat, lc: nat, phase: CloserPhase)

  /** How far retireEntry got for the entry being removed. */
  datatype Stage = Cancelled | NoneActive | Settled

  datatype Writer = Free | Editing | Retiring(id: string, stage: Stage)

  datatype Reader = Holding | Spawning(worker: nat) | Left

  datatype State = State(
    entries: map<string, Entry>,
    stacks: seq<Stack>,
    lcs: seq<Lifecycle>,
    workers: seq<Worker>,
    closers: seq<Closer>,
    writer: Writer,
    readers: seq<Reader>)

  datatype Label =
    | Lock | Unlock
    | EnsureLifecycle(id: string)
    | Open(olt: OltConfig)
    | Replace(olt: OltConfig)
    | Cancel(id: string) | LoadActive | CloseNow | Unmap
    | ReadLock | Count(reader: nat, id: string) | Spawn(reader: nat) | ReadUnlock(reader: nat)
    | Return(worker: nat) | Uncount(worker: nat) | Finish(worker: nat)
    | Wake(closer: nat) | CloseLate(closer: nat)

  const INIT := State(map[], [], [], [], [], Free, [])

  predicate HasLifecycle(s: State, id: string) {
    id in s.entries && s.entries[id].lc.Some? && s.entries[id].lc.value < |s.lcs|
  }

  ghost predicate Enabled(s: State, a: Label) {
    match a
    case Lock => s.writer.Free? && forall r :: 0 <= r < |s.readers| ==> s.readers[r].Left?
    case Unlock => s.writer.Editing?
    case EnsureLifecycle(id) => id in s.entries
    case Open(o) => s.writer.Editing? && o.id !in s.entries
    case Replace(o) =>
      && s.writer.Editing? && HasLifecycle(s, o.id)
      && ChangeKey(s.entries[o.id].olt) == ChangeKey(o)
    case Cancel(id) => s.writer.Editing? && HasLifecycle(s, id)
    case LoadActive => s.writer.Retiring? && s.writer.stage.Cancelled? && HasLifecycle(s, s.writer.id)
    case CloseNow =>
      && s.writer.Retiring? && s.writer.stage.NoneActive? && s.writer.id in s.entries
      && s.entries[s.writer.id].stack < |s.stacks|
    case Unmap => s.writer.Retiring? && s.writer.stage.Settled?
    case ReadLock => s.writer.Free?
    case Count(r, id) => r < |s.readers| && s.readers[r].Holding? && HasLifecycle(s, id)
    case Spawn(r) =>
      && r < |s.readers| && s.readers[r].Spawning? && s.readers[r].worker < |s.workers|
      && s.workers[s.readers[r].worker].lc < |s.lcs|
    case ReadUnlock(r) => r < |s.readers| && s.readers[r].Holding?
    case Return(w) => w < |s.workers| && s.workers[w].phase.Running?
    case Uncount(w) =>
      && w < |s.workers| && s.workers[w].phase.Returned? && s.workers[w].lc < |s.lcs|
      && s.lcs[s.workers[w].lc].active > 0
    case Finish(w) =>
      && w < |s.workers| && s.workers[w].phase.Uncounted? && s.workers[w].lc < |s.lcs|
      && s.lcs[s.workers[w].lc].wait > 0
    case Wake(c) =>
      && c < |s.closers| && s.closers[c].phase.Waiting? && s.closers[c].lc < |s.lcs|
      && s.lcs[s.closers[c].lc].wait == 0
    case CloseLate(c) => c < |s.closers| && s.closers[c].phase.Woken? && s.closers[c].stack < |s.stacks|
  }

  function SetLifecycle(s: State, l: nat, lc: Lifecycle): State
    requires l < |s.lcs|
  {
    s.(lcs := s.lcs[l := lc])
  }

  function SetPhase(s: State, w: nat, phase: Phase): State
    requires w < |s.workers|
  {
    s.(workers := s.workers[w := s.workers[w].(phase := phase)])
  }

  function CloseStack(s: State, k: nat): State
    requires k < |s.stacks|
  {
    s.(stacks := s.stacks[k := s.stacks[k].(closes := s.stacks[k].closes + 1)])
  }

  function Do(s: State, a: Label): State
    requires Enabled(s, a)
  {
    match a
    case Lock => s.(writer := Editing)
    case Unlock => s.(writer := Free)
    case EnsureLifecycle(id) =>
      var e := s.entries[id];
      if e.lc.Some? then s
      else s.(entries := s.entries[id := e.(lc := Some(|s.lcs|))],
              lcs := s.lcs + [Lifecycle(e.stack, false, 0, 0)])
    case Open(o) =>
      s.(entries := s.entries[o.id := Entry(o, |s.stacks|, None, o.boardPons, o.userId)],
         stacks := s.stacks + [Stack(o, 0)])
    case Replace(o) =>
      var e := s.entries[o.id];
      s.(entries := s.entries[o.id := Entry(o, e.stack, e.lc, e.boardPons, o.userId)])
    case Cancel(id) =>
      var l := s.entries[id].lc.value;
      SetLifecycle(s, l, s.lcs[l].(cancelled := true)).(writer := Retiring(id, Stage.Cancelled))
    case LoadActive =>
      var e := s.entries[s.writer.id];
      if s.lcs[e.lc.value].active == 0 then s.(writer := Retiring(s.writer.id, NoneActive))
      else s.(writer := Retiring(s.writer.id, Settled), closers := s.closers + [Closer(e.stack, e.lc.value, Waiting)])
    case CloseNow =>
      CloseStack(s, s.entries[s.writer.id].stack).(writer := Retiring(s.writer.id, Settled))
    case Unmap => s.(entries := s.entries - {s.writer.id}, writer := Editing)
    case ReadLock => s.(readers := s.readers + [Holding])
    case Count(r, id) =>
      var e := s.entries[id];
      var l := e.lc.value;
      SetLifecycle(s, l, s.lcs[l].(active := s.lcs[l].active + 1))
        .(workers := s.workers + [Worker(e.stack, l, Counted, r)],
          readers := s.readers[r := Spawning(|s.workers|)])
    case Spawn(r) =>
      var w := s.readers[r].worker;
      var l := s.workers[w].lc;
      SetLifecycle(SetPhase(s, w, Running), l, s.lcs[l].(wait := s.lcs[l].wait + 1))
        .(readers := s.readers[r := Holding])
    case ReadUnlock(r) => s.(readers := s.readers[r := Left])
    case Return(w) => SetPhase(s, w, Returned)
    case Uncount(w) =>
      var l := s.workers[w].lc;
      SetLifecycle(SetPhase(s, w, Uncounted), l, s.lcs[l].(active := s.lcs[l].active - 1))
    case Finish(w) =>
      var l := s.workers[w].lc;
      SetLifecycle(SetPhase(s, w, Phase.Done), l, s.lcs[l].(wait := s.lcs[l].wait - 1))
    case Wake(c) => s.(closers := s.closers[c := s.closers[c].(phase := Woken)])
    case CloseLate(c) =>
      CloseStack(s, s.closers[c].stack).(closers := s.closers[c := s.closers[c].(phase := Gone)])
  }

  ghost function Acts(): (State, Label, State) -> bool {
    (s: State, a: Label, t: State) => Enabled(s, a) && t == Do(s, a)
  }

  /** Some interleaving leads from s to t. */
  ghost predicate Leads(s: State, t: State) {
    Reaches(Acts(), Any(), s, t)
  }

  /** A state some run of the registry leads to. */
  ghost predicate Reachable(t: State) {
    Leads(INIT, t)
  }

  // ----- the invariant

  /** Phases in which fn has not returned, or the active counter still includes the worker. */
  predicate Live(phase: Phase) {
    phase.Counted? || phase.Running? || phase.Returned?
  }

  predicate Awaited(phase: Phase) {
    phase.Running? || phase.Returned? || phase.Uncounted?
  }

  function LiveOn(l: nat): Worker -> nat {
    (w: Worker) => if w.lc == l && Live(w.phase) then 1 else 0
  }

  function AwaitedOn(l: nat): Worker -> nat {
    (w: Worker) => if w.lc == l && Awaited(w.phase) then 1 else 0
  }

  function PendingFor(k: nat): Closer -> nat {
    (c: Closer) => if c.stack == k && !c.phase.Gone? then 1 else 0
  }

  predicate Maps(s: State, id: string, k: nat) {
    id in s.entries && s.entries[id].stack == k
  }

  /** The stack is mapped and retireEntry has not settled it. */
  ghost predicate Owned(s: State, k: nat) {
    exists id :: Maps(s, id, k) && s.writer != Retiring(id, Settled)
  }

  /** In how many of its three possible states a stack is. */
  ghost function States(s: State, k: nat): nat
    requires k < |s.stacks|
  {
    (if Owned(s, k) then 1 else 0) + Sum(s.closers, PendingFor(k)) + s.stacks[k].closes
  }

  /** The entry under id has that id, an opened stack, and a lifecycle of its own stack;
      without a lifecycle its stack has none. */
  ghost predicate EntryLinked(s: State, id: string)
    requires id in s.entries
  {
    var e := s.entries[id];
    && e.olt.id == id && e.stack < |s.stacks|
    && (e.lc.Some? ==> e.lc.value < |s.lcs| && s.lcs[e.lc.value].owner == e.stack)
    && (e.lc.None? ==> forall l :: 0 <= l < |s.lcs| ==> s.lcs[l].owner != e.stack)
  }

  ghost predicate EntriesLinked(s: State) {
    && (forall id :: id in s.entries ==> EntryLinked(s, id))
    && (forall id, id' :: id in s.entries && id' in s.entries && s.entries[id].stack == s.entries[id'].stack ==> id == id')
  }

  ghost predicate LifecyclesLinked(s: State) {
    && (forall l :: 0 <= l < |s.lcs| ==> s.lcs[l].owner < |s.stacks|)
    && (forall l, l' :: 0 <= l < l' < |s.lcs| ==> s.lcs[l].owner != s.lcs[l'].owner)
  }

  ghost predicate ThreadsLinked(s: State) {
    && (forall w :: 0 <= w < |s.workers| ==>
          s.workers[w].lc < |s.lcs| && s.lcs[s.workers[w].lc].owner == s.workers[w].stack)
    && (forall c :: 0 <= c < |s.closers| ==>
          s.closers[c].lc < |s.lcs| && s.lcs[s.closers[c].lc].owner == s.closers[c].stack)
  }

  ghost predicate Linked(s: State) {
    EntriesLinked(s) && LifecyclesLinked(s) && ThreadsLinked(s)
  }

  /** A writer excludes readers, and the entry it retires is mapped, with its lifecycle canceled. */
  ghost predicate WriterAlone(s: State) {
    && (!s.writer.Free? ==> forall r :: 0 <= r < |s.readers| ==> s.readers[r].Left?)
    && (s.writer.Retiring? ==> HasLifecycle(s, s.writer.id) && s.lcs[s.entries[s.writer.id].lc.value].cancelled)
  }

  /** Readers in the middle of starting a worker, and workers counted but not yet started, pair up. */
  ghost predicate SpawnsPaired(s: State) {
    && (forall r :: 0 <= r < |s.readers| && s.readers[r].Spawning? ==>
          s.readers[r].worker < |s.workers| && s.workers[s.readers[r].worker].phase.Counted?)
    && (forall r, r' :: 0 <= r < r' < |s.readers| && s.readers[r].Spawning? && s.readers[r'].Spawning? ==>
          s.readers[r].worker != s.readers[r'].worker)
    && (forall w :: 0 <= w < |s.workers| && s.workers[w].phase.Counted? ==> IsSpawned(s, w))
  }

  ghost predicate IsSpawned(s: State, w: nat) {
    exists r :: 0 <= r < |s.readers| && s.readers[r] == Spawning(w)
  }

  ghost predicate Locked(s: State) {
    WriterAlone(s) && SpawnsPaired(s)
  }

  ghost predicate Counters(s: State) {
    forall l :: 0 <= l < |s.lcs| ==> CounterOk(s, l)
  }

  ghost predicate CounterOk(s: State, l: nat)
    requires l < |s.lcs|
  {
    s.lcs[l].active == Sum(s.workers, LiveOn(l)) && s.lcs[l].wait == Sum(s.workers, AwaitedOn(l))
  }

  ghost predicate OneState(s: State) {
    forall k :: 0 <= k < |s.stacks| ==> States(s, k) == 1
  }

  /** The worker's stack is mapped, and the writer is not about to close it or done with it. */
  ghost predicate KeptMapped(s: State, k: nat) {
    exists id :: Maps(s, id, k) && s.writer != Retiring(id, Settled) && s.writer != Retiring(id, NoneActive)
  }

  ghost predicate HasCloser(s: State, l: nat) {
    exists c :: 0 <= c < |s.closers| && s.closers[c].phase.Waiting? && s.closers[c].lc == l
  }

  /** Why a live worker's pool stays open: its stack is mapped and not being closed,
      or it has started and a closer waits for its lifecycle. */
  ghost predicate Guarded(s: State, w: Worker) {
    KeptMapped(s, w.stack) || (!w.phase.Counted? && HasCloser(s, w.lc))
  }

  ghost predicate AllGuarded(s: State) {
    forall w :: 0 <= w < |s.workers| && Live(s.workers[w].phase) ==> Guarded(s, s.workers[w])
  }

  ghost predicate Inv(s: State) {
    Linked(s) && Locked(s) && Counters(s) && OneState(s) && AllGuarded(s)
  }

  // ----- the invariant holds over every run

  lemma InitInv()
    ensures Inv(INIT)
  {
  }

  /** Labels that leave entries, writer and readers alone. */
  predicate Background(a: Label) {
    a.Return? || a.Uncount? || a.Finish? || a.Wake? || a.CloseLate?
  }

  /** Labels that change the entries map. */
  predicate Edits(a: Label) {
    a.EnsureLifecycle? || a.Open? || a.Replace? || a.Unmap?
  }

  lemma EntriesLinkedEnsure(s: State, a: Label)
    requires Linked(s) && Enabled(s, a) && a.EnsureLifecycle?
    ensures EntriesLinked(Do(s, a))
  {
    forall id | id in Do(s, a).entries ensures EntryLinked(Do(s, a), id) {
      assert EntryLinked(s, id);
    }
  }

  lemma EntriesLinkedOpen(s: State, a: Label)
    requires Linked(s) && Enabled(s, a) && a.Open?
    ensures EntriesLinked(Do(s, a))
  {
    forall id | id in Do(s, a).entries ensures EntryLinked(Do(s, a), id) {
      assert id in s.entries ==> EntryLinked(s, id);
    }
  }

  lemma EntriesLinkedReplace(s: State, a: Label)
    requires Linked(s) && Enabled(s, a) && a.Replace?
    ensures EntriesLinked(Do(s, a))
  {
    forall id | id in Do(s, a).entries ensures EntryLinked(Do(s, a), id) {
      assert id in s.entries && EntryLinked(s, id);
    }
  }

  lemma EntriesLinkedUnmap(s: State, a: Label)
    requires Linked(s) && Enabled(s, a) && a.Unmap?
    ensures EntriesLinked(Do(s, a))
  {
    forall id | id in Do(s, a).entries ensures EntryLinked(Do(s, a), id) {
      assert id in s.entries && EntryLinked(s, id);
    }
  }

  lemma EntriesLinkedStep(s: State, a: Label)
    requires Linked(s) && Enabled(s, a)
    ensures EntriesLinked(Do(s, a))
  {
    if a.EnsureLifecycle? {
      EntriesLinkedEnsure(s, a);
    } else if a.Open? {
      EntriesLinkedOpen(s, a);
    } else if a.Replace? {
      EntriesLinkedReplace(s, a);
    } else if a.Unmap? {
      EntriesLinkedUnmap(s, a);
    } else {
      SameOwners(s, a);
      forall id | id in Do(s, a).entries ensures EntryLinked(Do(s, a), id) {
        assert EntryLinked(s, id);
      }
    }
  }

  /** Other labels keep entries, the number of stacks, and who owns each lifecycle. */
  lemma SameOwners(s: State, a: Label)
    requires Enabled(s, a) && !a.EnsureLifecycle? && !a.Open?
    ensures var t := Do(s, a);
      && |t.lcs| == |s.lcs| && (forall l :: 0 <= l < |s.lcs| ==> t.lcs[l].owner == s.lcs[l].owner)
      && |t.stacks| == |s.stacks|
      && (!Edits(a) ==> t.entries == s.entries)
  {
  }

  lemma LifecyclesLinkedStep(s: State, a: Label)
    requires Linked(s) && Enabled(s, a)
    ensures LifecyclesLinked(Do(s, a))
  {
    if a.EnsureLifecycle? {
      assert EntryLinked(s, a.id);
    } else if !a.Open? {
      SameOwners(s, a);
    }
  }

  lemma ThreadsLinkedNew(s: State, a: Label)
    requires Linked(s) && Enabled(s, a) && (a.LoadActive? || a.Count?)
    ensures ThreadsLinked(Do(s, a))
  {
    if a.LoadActive? {
      assert EntryLinked(s, s.writer.id);
    } else {
      assert EntryLinked(s, a.id);
    }
    SameOwners(s, a);
  }

  lemma ThreadsLinkedStep(s: State, a: Label)
    requires Linked(s) && Enabled(s, a)
    ensures ThreadsLinked(Do(s, a))
  {
    if a.LoadActive? || a.Count? {
      ThreadsLinkedNew(s, a);
    } else if !a.EnsureLifecycle? && !a.Open? {
      SameOwners(s, a);
    }
  }

  lemma WriterAloneStep(s: State, a: Label)
    requires Linked(s) && WriterAlone(s) && Enabled(s, a)
    ensures WriterAlone(Do(s, a))
  {
    if a.EnsureLifecycle? {
      assert EntryLinked(s, a.id);
    }
  }

  lemma SpawnedStep(s: State, a: Label, w: nat)
    requires SpawnsPaired(s) && Enabled(s, a) && w < |Do(s, a).workers| && Do(s, a).workers[w].phase.Counted?
    ensures IsSpawned(Do(s, a), w)
  {
    var t := Do(s, a);
    if a.Count? && w == |s.workers| {
      assert t.readers[a.reader] == Spawning(w);
    } else {
      assert s.workers[w].phase.Counted? && IsSpawned(s, w);
      var r :| 0 <= r < |s.readers| && s.readers[r] == Spawning(w);
      assert t.readers[r] == Spawning(w);
    }
  }

  lemma SpawnsPairedCount(s: State, a: Label)
    requires SpawnsPaired(s) && Enabled(s, a) && a.Count?
    ensures SpawnsPaired(Do(s, a))
  {
    forall w | 0 <= w < |Do(s, a).workers| && Do(s, a).workers[w].phase.Counted? ensures IsSpawned(Do(s, a), w) {
      SpawnedStep(s, a, w);
    }
  }

  lemma SpawnsPairedMove(s: State, a: Label)
    requires SpawnsPaired(s) && Enabled(s, a) && (a.ReadLock? || a.ReadUnlock? || MovesWorker(a))
    ensures SpawnsPaired(Do(s, a))
  {
    forall w | 0 <= w < |Do(s, a).workers| && Do(s, a).workers[w].phase.Counted? ensures IsSpawned(Do(s, a), w) {
      SpawnedStep(s, a, w);
    }
  }

  lemma SpawnsPairedStep(s: State, a: Label)
    requires SpawnsPaired(s) && Enabled(s, a)
    ensures SpawnsPaired(Do(s, a))
  {
    if a.Count? {
      SpawnsPairedCount(s, a);
    } else if a.ReadLock? || a.ReadUnlock? || MovesWorker(a) {
      SpawnsPairedMove(s, a);
    } else {
      SpawnsPairedKept(s, a);
    }
  }

  lemma SpawnsPairedKept(s: State, a: Label)
    requires SpawnsPaired(s) && Enabled(s, a) && !a.ReadLock? && !a.Count? && !a.ReadUnlock? && !MovesWorker(a)
    ensures SpawnsPaired(Do(s, a))
  {
    assert Do(s, a).readers == s.readers && Do(s, a).workers == s.workers;
    assert forall w :: IsSpawned(s, w) ==> IsSpawned(Do(s, a), w);
  }

  /** Labels that change a worker's phase. */
  predicate MovesWorker(a: Label) {
    a.Spawn? || a.Return? || a.Uncount? || a.Finish?
  }

  function MovedWorker(s: State, a: Label): nat
    requires MovesWorker(a) && Enabled(s, a)
  {
    if a.Spawn? then s.readers[a.reader].worker else a.worker
  }

  lemma CountersOfMove(s: State, a: Label, l: nat)
    requires Counters(s) && Locked(s) && Enabled(s, a) && MovesWorker(a) && l < |s.lcs|
    ensures CounterOk(Do(s, a), l)
  {
    var w, t := MovedWorker(s, a), Do(s, a);
    assert CounterOk(s, l);
    SumUpdate(s.workers, w, t.workers[w], LiveOn(l));
    SumUpdate(s.workers, w, t.workers[w], AwaitedOn(l));
  }

  lemma CountersOfEnsure(s: State, a: Label, l: nat)
    requires Linked(s) && Counters(s) && Enabled(s, a) && a.EnsureLifecycle? && l < |Do(s, a).lcs|
    ensures CounterOk(Do(s, a), l)
  {
    if l < |s.lcs| {
      assert CounterOk(s, l);
    } else {
      SumZero(s.workers, LiveOn(l));
      SumZero(s.workers, AwaitedOn(l));
    }
  }

  lemma CountersOfCount(s: State, a: Label, l: nat)
    requires Linked(s) && Counters(s) && Enabled(s, a) && a.Count? && l < |Do(s, a).lcs|
    ensures CounterOk(Do(s, a), l)
  {
    assert CounterOk(s, l);
    SumAppend(s.workers, Do(s, a).workers[|s.workers|], LiveOn(l));
    SumAppend(s.workers, Do(s, a).workers[|s.workers|], AwaitedOn(l));
  }

  /** Labels that leave the workers and the counters alone. */
  lemma CountersKept(s: State, a: Label, l: nat)
    requires Counters(s) && Enabled(s, a) && !MovesWorker(a) && !a.EnsureLifecycle? && !a.Count? && l < |Do(s, a).lcs|
    ensures CounterOk(Do(s, a), l)
  {
    assert CounterOk(s, l);
  }

  lemma CountersStep(s: State, a: Label)
    requires Linked(s) && Locked(s) && Counters(s) && Enabled(s, a)
    ensures Counters(Do(s, a))
  {
    forall l | 0 <= l < |Do(s, a).lcs| ensures CounterOk(Do(s, a), l) {
      if MovesWorker(a) {
        CountersOfMove(s, a, l);
      } else if a.EnsureLifecycle? {
        CountersOfEnsure(s, a, l);
      } else if a.Count? {
        CountersOfCount(s, a, l);
      } else {
        CountersKept(s, a, l);
      }
    }
  }

  // ----- stacks and live workers

  lemma StatesStep(s: State, a: Label, k: nat)
    requires Linked(s) && Locked(s) && OneState(s) && Enabled(s, a) && k < |s.stacks|
    ensures States(Do(s, a), k) == 1
  {
    assert States(s, k) == 1;
    if a.LoadActive? {
      LoadActiveStates(s, k);
    } else if a.CloseNow? || a.Unmap? {
      SettledStates(s, a, k);
    } else {
      SameOwned(s, a, k);
      PendingOrClosed(s, a, k);
    }
  }

  /** Outside retireEntry a stack changes only from pending to closed, by its closer. */
  lemma PendingOrClosed(s: State, a: Label, k: nat)
    requires Enabled(s, a) && k < |s.stacks| && !a.LoadActive? && !a.CloseNow? && !a.Unmap?
    ensures k < |Do(s, a).stacks|
    ensures Sum(Do(s, a).closers, PendingFor(k)) + Do(s, a).stacks[k].closes == Sum(s.closers, PendingFor(k)) + s.stacks[k].closes
  {
    if a.Wake? || a.CloseLate? {
      SumUpdate(s.closers, a.closer, Do(s, a).closers[a.closer], PendingFor(k));
    }
  }

  lemma OneStateStep(s: State, a: Label)
    requires Linked(s) && Locked(s) && OneState(s) && Enabled(s, a)
    ensures OneState(Do(s, a))
  {
    var t := Do(s, a);
    forall k | 0 <= k < |t.stacks| ensures States(t, k) == 1 {
      if k < |s.stacks| {
        StatesStep(s, a, k);
      } else {
        assert Maps(t, a.olt.id, k);
        SumZero(s.closers, PendingFor(k));
      }
    }
  }

  /** Labels outside retireEntry's two closing steps keep what is owned. */
  lemma SameOwned(s: State, a: Label, k: nat)
    requires Linked(s) && Locked(s) && Enabled(s, a) && k < |s.stacks|
    requires !a.LoadActive? && !a.CloseNow? && !a.Unmap?
    ensures Owned(Do(s, a), k) == Owned(s, k)
  {
    if Owned(s, k) {
      OwnedStays(s, a, k);
    }
    if Owned(Do(s, a), k) {
      OwnedBefore(s, a, k);
    }
  }

  lemma OwnedStays(s: State, a: Label, k: nat)
    requires Linked(s) && Locked(s) && Enabled(s, a) && k < |s.stacks| && Owned(s, k)
    requires !a.LoadActive? && !a.CloseNow? && !a.Unmap?
    ensures Owned(Do(s, a), k)
  {
    var id :| Maps(s, id, k) && s.writer != Retiring(id, Settled);
    assert Maps(Do(s, a), id, k);
  }

  lemma OwnedBefore(s: State, a: Label, k: nat)
    requires Linked(s) && Locked(s) && Enabled(s, a) && k < |s.stacks| && Owned(Do(s, a), k)
    requires !a.LoadActive? && !a.CloseNow? && !a.Unmap?
    ensures Owned(s, k)
  {
    var id :| Maps(Do(s, a), id, k) && Do(s, a).writer != Retiring(id, Settled);
    assert Maps(s, id, k);
  }

  /** Settling the entry being retired takes ownership from its stack and from no other. */
  lemma OwnedAfterSettling(s: State, t: State, k: nat)
    requires Linked(s) && s.writer.Retiring? && s.writer.id in s.entries && !s.writer.stage.Settled?
    requires t.entries == s.entries && t.writer == Retiring(s.writer.id, Settled)
    ensures Owned(s, s.entries[s.writer.id].stack)
    ensures Owned(t, k) == (Owned(s, k) && k != s.entries[s.writer.id].stack)
  {
    var id := s.writer.id;
    assert Maps(s, id, s.entries[id].stack);
    if Owned(s, k) && k != s.entries[id].stack {
      var i :| Maps(s, i, k) && s.writer != Retiring(i, Settled);
      assert Maps(t, i, k);
    }
    if Owned(t, k) {
      var i :| Maps(t, i, k) && t.writer != Retiring(i, Settled);
      assert Maps(s, i, k);
    }
  }

  lemma LoadActiveStates(s: State, k: nat)
    requires Linked(s) && Locked(s) && OneState(s) && Enabled(s, LoadActive) && k < |s.stacks|
    ensures States(Do(s, LoadActive), k) == 1
  {
    var t := Do(s, LoadActive);
    assert States(s, k) == 1;
    if t.writer.stage.Settled? {
      OwnedAfterSettling(s, t, k);
      SumAppend(s.closers, t.closers[|s.closers|], PendingFor(k));
    } else {
      if Owned(s, k) {
        var id :| Maps(s, id, k);
        assert Maps(t, id, k);
      }
      if Owned(t, k) {
        var id :| Maps(t, id, k);
        assert Maps(s, id, k);
      }
    }
  }

  lemma SettledStates(s: State, a: Label, k: nat)
    requires Linked(s) && Locked(s) && OneState(s) && Enabled(s, a) && k < |s.stacks| && (a.CloseNow? || a.Unmap?)
    ensures States(Do(s, a), k) == 1
  {
    var t := Do(s, a);
    assert States(s, k) == 1;
    if a.CloseNow? {
      OwnedAfterSettling(s, t, k);
    } else {
      if Owned(s, k) {
        var id :| Maps(s, id, k) && s.writer != Retiring(id, Settled);
        assert Maps(t, id, k);
      }
      if Owned(t, k) {
        var id :| Maps(t, id, k);
        assert Maps(s, id, k);
      }
    }
  }

  /** Two lifecycles of one stack are the same lifecycle. */
  lemma OneLifecyclePerStack(s: State, l: nat, l': nat)
    requires LifecyclesLinked(s) && l < |s.lcs| && l' < |s.lcs| && s.lcs[l].owner == s.lcs[l'].owner
    ensures l == l'
  {
  }

  /** retireEntry only closes at once when no worker of the stack is live. */
  lemma RetiredWorkerHasCloser(s: State, w: nat)
    requires Inv(s) && Enabled(s, LoadActive) && w < |s.workers| && Live(s.workers[w].phase)
    requires s.entries[s.writer.id].stack == s.workers[w].stack
    ensures HasCloser(Do(s, LoadActive), s.workers[w].lc) && !s.workers[w].phase.Counted?
  {
    var t := Do(s, LoadActive);
    assert EntryLinked(s, s.writer.id);
    var l := s.entries[s.writer.id].lc.value;
    OneLifecyclePerStack(s, l, s.workers[w].lc);
    assert CounterOk(s, l);
    SumMember(s.workers, w, LiveOn(l));
    assert t.closers[|s.closers|].phase.Waiting?;
    assert s.workers[w].phase.Counted? ==> IsSpawned(s, w);
  }

  lemma KeptMappedStep(s: State, a: Label, w: nat)
    requires Inv(s) && Enabled(s, a) && w < |s.workers| && Live(s.workers[w].phase)
    requires KeptMapped(s, s.workers[w].stack)
    ensures Guarded(Do(s, a), s.workers[w])
  {
    var t, k := Do(s, a), s.workers[w].stack;
    var id :| Maps(s, id, k) && s.writer != Retiring(id, Settled) && s.writer != Retiring(id, NoneActive);
    if a.LoadActive? && s.writer.id == id {
      RetiredWorkerHasCloser(s, w);
    } else {
      assert Maps(t, id, k);
    }
  }

  lemma HasCloserStep(s: State, a: Label, w: nat)
    requires Inv(s) && Enabled(s, a) && w < |s.workers| && Live(s.workers[w].phase)
    requires !s.workers[w].phase.Counted? && HasCloser(s, s.workers[w].lc)
    ensures HasCloser(Do(s, a), s.workers[w].lc)
  {
    var l := s.workers[w].lc;
    var c :| 0 <= c < |s.closers| && s.closers[c].phase.Waiting? && s.closers[c].lc == l;
    AwaitedCloserSleeps(s, c, w);
    CloserStays(s, a, c);
    assert Do(s, a).closers[c] == s.closers[c];
  }

  /** A closer does not wake while a worker of its lifecycle has not returned. */
  lemma AwaitedCloserSleeps(s: State, c: nat, w: nat)
    requires Inv(s) && c < |s.closers| && w < |s.workers| && s.closers[c].lc == s.workers[w].lc
    requires Live(s.workers[w].phase) && !s.workers[w].phase.Counted?
    ensures !Enabled(s, Wake(c))
  {
    assert CounterOk(s, s.workers[w].lc);
    SumMember(s.workers, w, AwaitedOn(s.workers[w].lc));
  }

  lemma CloserStays(s: State, a: Label, c: nat)
    requires Enabled(s, a) && c < |s.closers| && s.closers[c].phase.Waiting? && a != Wake(c)
    ensures c < |Do(s, a).closers| && Do(s, a).closers[c] == s.closers[c]
  {
  }

  /** Workers keep stack and lifecycle, and never become live again. */
  lemma WorkersKept(s: State, a: Label, w: nat)
    requires SpawnsPaired(s) && Enabled(s, a) && w < |s.workers|
    ensures w < |Do(s, a).workers|
    ensures var x, y := s.workers[w], Do(s, a).workers[w];
      && y.stack == x.stack && y.lc == x.lc
      && (Live(y.phase) ==> Live(x.phase)) && (y.phase.Counted? ==> x.phase.Counted?)
  {
  }

  lemma AllGuardedStep(s: State, a: Label)
    requires Inv(s) && Enabled(s, a)
    ensures AllGuarded(Do(s, a))
  {
    var t := Do(s, a);
    forall w | 0 <= w < |t.workers| && Live(t.workers[w].phase) ensures Guarded(t, t.workers[w]) {
      if w < |s.workers| {
        WorkersKept(s, a, w);
        assert Guarded(s, s.workers[w]);
        if KeptMapped(s, s.workers[w].stack) {
          KeptMappedStep(s, a, w);
          StartedStaysGuarded(s, t, w);
        } else {
          HasCloserStep(s, a, w);
        }
      } else {
        assert s.writer.Free?;
        assert Maps(t, a.id, t.workers[w].stack);
      }
    }
  }

  lemma StartedStaysGuarded(s: State, t: State, w: nat)
    requires w < |s.workers| && w < |t.workers| && Guarded(t, s.workers[w])
    requires t.workers[w].stack == s.workers[w].stack && t.workers[w].lc == s.workers[w].lc
    requires t.workers[w].phase.Counted? ==> s.workers[w].phase.Counted?
    ensures Guarded(t, t.workers[w])
  {
  }

  lemma StepInv(s: State, a: Label)
    requires Inv(s) && Enabled(s, a)
    ensures Inv(Do(s, a))
  {
    EntriesLinkedStep(s, a);
    LifecyclesLinkedStep(s, a);
    ThreadsLinkedStep(s, a);
    WriterAloneStep(s, a);
    SpawnsPairedStep(s, a);
    CountersStep(s, a);
    OneStateStep(s, a);
    AllGuardedStep(s, a);
  }

  ghost function InvHolds(): State -> bool { (s: State) => Inv(s) }

  lemma RunInv(s: State, t: State)
    requires Inv(s) && Leads(s, t)
    ensures Inv(t)
  {
    forall s, a, t | InvHolds()(s) && Any<Label>()(a) && Acts()(s, a, t) ensures InvHolds()(t) {
      StepInv(s, a);
    }
    ReachesInduction(Acts(), Any(), s, t, InvHolds());
  }

  lemma ReachableInv(t: State)
    requires Reachable(t)
    ensures Inv(t)
  {
    InitInv();
    RunInv(INIT, t);
  }

  // ----- what every reachable state satisfies

  lemma GuardedIsOpen(s: State, w: nat)
    requires Inv(s) && w < |s.workers| && Live(s.workers[w].phase)
    ensures s.workers[w].stack < |s.stacks| && s.stacks[s.workers[w].stack].closes == 0
  {
    var k, l := s.workers[w].stack, s.workers[w].lc;
    assert s.lcs[l].owner == k;
    assert States(s, k) == 1;
    if KeptMapped(s, k) {
      var id :| Maps(s, id, k) && s.writer != Retiring(id, Settled);
      assert Owned(s, k);
    } else {
      assert HasCloser(s, l);
      var c :| 0 <= c < |s.closers| && s.closers[c].phase.Waiting? && s.closers[c].lc == l;
      SumMember(s.closers, c, PendingFor(k));
    }
  }

  /** In every interleaving, a tracked worker's fn never runs while the pool of its stack is closed. */
  lemma WorkerNeverMeetsClosedPool(t: State, w: nat)
    requires Reachable(t) && w < |t.workers| && t.workers[w].phase.Running?
    ensures t.workers[w].stack < |t.stacks| && t.stacks[t.workers[w].stack].closes == 0
  {
    ReachableInv(t);
    GuardedIsOpen(t, w);
  }

  /** All workers ever started for one stack share one lifecycle, across every metadata-only copy of its entry. */
  lemma CopiesShareLifecycle(t: State, w: nat, w': nat)
    requires Reachable(t) && w < |t.workers| && w' < |t.workers|
    requires t.workers[w].stack == t.workers[w'].stack
    ensures t.workers[w].lc == t.workers[w'].lc
  {
    ReachableInv(t);
    OneLifecyclePerStack(t, t.workers[w].lc, t.workers[w'].lc);
  }

  /** Every stack ever opened is in exactly one state: mapped and open, retired with one pending
      closer and open, or closed exactly once. */
  lemma StackInOneState(t: State, k: nat)
    requires Reachable(t) && k < |t.stacks|
    ensures t.stacks[k].closes <= 1
    ensures Owned(t, k) ==> t.stacks[k].closes == 0 && Sum(t.closers, PendingFor(k)) == 0
    ensures !Owned(t, k) && t.stacks[k].closes == 0 ==> Sum(t.closers, PendingFor(k)) == 1
    ensures t.stacks[k].closes == 1 ==> !Owned(t, k) && Sum(t.closers, PendingFor(k)) == 0
  {
    ReachableInv(t);
    assert States(t, k) == 1;
  }

  /** With nothing mapped and every worker done, a closer that is left can act at once. */
  lemma LeftoverCloserActs(s: State, k: nat) returns (a: Label)
    requires Inv(s) && s.entries == map[] && k < |s.stacks| && s.stacks[k].closes == 0
    requires forall w :: 0 <= w < |s.workers| ==> s.workers[w].phase.Done?
    ensures Enabled(s, a) && (a.Wake? || a.CloseLate?)
  {
    assert States(s, k) == 1;
    var c := SumPositive(s.closers, PendingFor(k));
    var l := s.closers[c].lc;
    assert s.lcs[l].owner == k;
    assert CounterOk(s, l);
    SumZero(s.workers, AwaitedOn(l));
    a := if s.closers[c].phase.Waiting? then Wake(c) else CloseLate(c);
  }

  function Unclosed(): Closer -> nat {
    (c: Closer) => match c.phase
      case Waiting => 2
      case Woken => 1
      case Gone => 0
  }

  ghost function OfClosers(): Label -> bool { (a: Label) => a.Wake? || a.CloseLate? }

  lemma CloserStepShrinks(s: State, a: Label)
    requires Enabled(s, a) && OfClosers()(a)
    ensures Sum(Do(s, a).closers, Unclosed()) < Sum(s.closers, Unclosed())
    ensures Do(s, a).entries == s.entries && Do(s, a).workers == s.workers && |Do(s, a).stacks| == |s.stacks|
  {
    SumUpdate(s.closers, a.closer, Do(s, a).closers[a.closer], Unclosed());
  }

  lemma ClosedOnce(s: State)
    requires Inv(s) && forall k :: 0 <= k < |s.stacks| ==> s.stacks[k].closes != 0
    ensures forall k :: 0 <= k < |s.stacks| ==> s.stacks[k].closes == 1
  {
    forall k | 0 <= k < |s.stacks| ensures s.stacks[k].closes == 1 {
      assert States(s, k) == 1;
    }
  }

  /** Once Close has emptied the registry and all workers have returned, the pending closers
      finish on their own, and then every stack ever opened has been closed exactly once. */
  lemma {:induction false} ShutdownClosesAll(s: State) returns (t: State)
    requires Inv(s) && s.entries == map[]
    requires forall w :: 0 <= w < |s.workers| ==> s.workers[w].phase.Done?
    ensures Reaches(Acts(), OfClosers(), s, t)
    ensures |t.stacks| == |s.stacks| && forall k :: 0 <= k < |t.stacks| ==> t.stacks[k].closes == 1
    decreases Sum(s.closers, Unclosed())
  {
    ReachesItself(Acts(), OfClosers(), s);
    if forall k :: 0 <= k < |s.stacks| ==> s.stacks[k].closes != 0 {
      ClosedOnce(s);
      t := s;
    } else {
      var k :| 0 <= k < |s.stacks| && s.stacks[k].closes == 0;
      var a := LeftoverCloserActs(s, k);
      StepInv(s, a);
      CloserStepShrinks(s, a);
      ReachesNext(Acts(), OfClosers(), s, s, a, Do(s, a));
      t := ShutdownClosesAll(Do(s, a));
      ReachesThrough(Acts(), OfClosers(), s, Do(s, a), t);
    }
  }
}

/** The OLT registry as the object its callers share. Each method is the code of one thread;
    between two of its atomic actions it yields to every thread the lock does not exclude.
    The whole state, with the stacks, lifecycles, workers and closers the goroutines act on,
    is one value, and every method is shown to be a run of RegistryProtocol. */
module Registry {
  import opened Text
  import opened Olts
  import opened Boards
  import opened ChangeKeys
  import opened RegistryProtocol
  import opened RegistryTopology
  import opened Runs

  /** In a reachable state an entry has its own id and stack, and a lifecycle that exists. */
  lemma EntryFacts(s: State, id: string)
    requires Sound(s) && id in s.entries
    ensures var e := s.entries[id];
      e.olt.id == id && e.stack < |s.stacks| && (e.lc.Some? ==> e.lc.value < |s.lcs|)
  {
    SoundIsReachable(s);
    ReachableInv(s);
    assert EntryLinked(s, id);
  }

  /** In a reachable state a stack that is mapped only by id is not owned once id is settled. */
  lemma UnmappedNotOwned(s: State, id: string)
    requires Sound(s) && s.writer == Retiring(id, Settled) && id in s.entries
    ensures !Owned(Do(s, Unmap), s.entries[id].stack)
  {
    SoundIsReachable(s);
    ReachableInv(s);
    var t, k := Do(s, Unmap), s.entries[id].stack;
    assert Maps(s, id, k);
    assert forall i :: Maps(t, i, k) ==> Maps(s, i, k);
  }

  // ----- what other threads can do meanwhile

  /** What a writer may rely on while workers and closers run. */
  ghost predicate WriterSees(s: State, t: State) {
    && t.entries == s.entries && t.writer == s.writer && t.readers == s.readers
    && |t.lcs| == |s.lcs|
    && |t.stacks| == |s.stacks| && forall k :: 0 <= k < |s.stacks| ==> t.stacks[k].config == s.stacks[k].config
  }

  ghost function BackgroundLabels(): Label -> bool { (a: Label) => Background(a) }

  ghost function WriterStillSees(s: State): State -> bool { (t: State) => WriterSees(s, t) }

  /** That is what every run of workers and closers does. */
  lemma BackgroundRun(s: State, t: State)
    requires Reaches(Acts(), BackgroundLabels(), s, t)
    ensures WriterSees(s, t)
  {
    forall u, a, v | WriterStillSees(s)(u) && BackgroundLabels()(a) && Acts()(u, a, v) ensures WriterStillSees(s)(v) {
      assert Background(a) && v == Do(u, a);
    }
    ReachesInduction(Acts(), BackgroundLabels(), s, t, WriterStillSees(s));
  }

  /** What a reader may rely on: no writer comes in, its own place is kept, entries keep their stacks and
      the lifecycles they have, and workers started meanwhile are not its own. */
  ghost predicate ReaderSees(s: State, t: State, r: nat) {
    && r < |s.readers| && r < |t.readers| && t.readers[r] == s.readers[r]
    && t.writer == s.writer
    && EntriesKept(s, t) && WorkersKeptFrom(s, t, r)
  }

  ghost predicate EntriesKept(s: State, t: State) {
    && t.entries.Keys == s.entries.Keys
    && forall id :: id in s.entries ==>
         t.entries[id].stack == s.entries[id].stack
         && (s.entries[id].lc.Some? ==> t.entries[id].lc == s.entries[id].lc)
  }

  ghost predicate WorkersKeptFrom(s: State, t: State, r: nat) {
    && |t.workers| >= |s.workers|
    && (forall w :: 0 <= w < |s.workers| ==>
          t.workers[w].stack == s.workers[w].stack && t.workers[w].reader == s.workers[w].reader)
    && forall w :: |s.workers| <= w < |t.workers| ==> t.workers[w].reader != r
  }

  /** Every label but those of reader r. */
  ghost function NotOfReader(r: nat): Label -> bool {
    (a: Label) => (a.Count? || a.Spawn? || a.ReadUnlock?) ==> a.reader != r
  }

  ghost function ReaderStillSees(s: State, r: nat): State -> bool { (t: State) => ReaderSees(s, t, r) }

  lemma ReaderStep(s: State, u: State, a: Label, r: nat)
    requires ReaderSees(s, u, r) && s.writer.Free? && !s.readers[r].Left?
    requires NotOfReader(r)(a) && Enabled(u, a)
    ensures ReaderSees(s, Do(u, a), r)
  {
    assert !a.Lock?;
  }

  /** That is what every run of the others does while the reader holds the read lock. */
  lemma ReaderRun(s: State, t: State, r: nat)
    requires Reaches(Acts(), NotOfReader(r), s, t) && s.writer.Free? && r < |s.readers| && !s.readers[r].Left?
    ensures ReaderSees(s, t, r)
  {
    forall u, a, v | ReaderStillSees(s, r)(u) && NotOfReader(r)(a) && Acts()(u, a, v) ensures ReaderStillSees(s, r)(v) {
      ReaderStep(s, u, a, r);
    }
    ReachesInduction(Acts(), NotOfReader(r), s, t, ReaderStillSees(s, r));
  }

  // ----- convergence

  /** Whether SetupSnmpConnectionWith succeeds: valid parameters and a successful dial. */
  predicate Opens(o: OltConfig, dials: OltConfig -> bool) {
    o.host != "" && o.port != 0 && o.community != "" && dials(o)
  }

  ghost predicate Kept(before: State, o: OltConfig) {
    o.id in before.entries && ChangeKey(before.entries[o.id].olt) == ChangeKey(o)
  }

  /** The entry carries the incoming config and owner on the same stack, topology and lifecycle. */
  ghost predicate KeptEntry(before: State, o: OltConfig, s: State) {
    && o.id in s.entries && o.id in before.entries
    && var e, earlier := s.entries[o.id], before.entries[o.id];
    && e == Entry(o, earlier.stack, e.lc, earlier.boardPons, o.userId)
    && e.lc.Some? && (earlier.lc.Some? ==> e.lc == earlier.lc)
  }

  /** The entry has a stack opened since, built from the incoming config. */
  ghost predicate FreshEntry(before: State, o: OltConfig, s: State) {
    && o.id in s.entries
    && var e := s.entries[o.id];
    && e == Entry(o, e.stack, e.lc, o.boardPons, o.userId)
    && |before.stacks| <= e.stack < |s.stacks| && s.stacks[e.stack].config == o
  }

  ghost predicate OltDone(before: State, o: OltConfig, dials: OltConfig -> bool, s: State) {
    if Kept(before, o) then KeptEntry(before, o, s)
    else if Opens(o, dials) then FreshEntry(before, o, s)
    else o.id !in s.entries
  }

  /** The registry maps exactly the incoming OLTs whose stack was kept or opened, each as it came in. */
  ghost predicate Converged(before: State, olts: seq<OltConfig>, dials: OltConfig -> bool, s: State) {
    && (forall i :: 0 <= i < |olts| ==> OltDone(before, olts[i], dials, s))
    && (forall id :: id in s.entries ==> HasId(olts, id))
  }

  /** An OLT whose change key is that of its entry before keeps its stack; any other one is mapped exactly when
      its connection parameters are complete and the dial succeeds, and then to a stack opened since from its config. */
  ghost predicate MappedAsDialled(before: State, o: OltConfig, dials: OltConfig -> bool, s: State) {
    if o.id in before.entries && ChangeKey(before.entries[o.id].olt) == ChangeKey(o) then
      o.id in s.entries && s.entries[o.id].stack == before.entries[o.id].stack
      && s.entries[o.id].olt == o && s.entries[o.id].userId == o.userId
    else
      && (o.id in s.entries <==> o.host != "" && o.port != 0 && o.community != "" && dials(o))
      && (o.id in s.entries ==>
            && |before.stacks| <= s.entries[o.id].stack < |s.stacks|
            && s.stacks[s.entries[o.id].stack].config == o && s.entries[o.id].olt == o
            && s.entries[o.id].userId == o.userId && s.entries[o.id].boardPons == o.boardPons)
  }

  lemma DoneIsMapped(before: State, o: OltConfig, dials: OltConfig -> bool, s: State)
    requires OltDone(before, o, dials, s)
    ensures MappedAsDialled(before, o, dials, s)
  {
  }

  lemma AllMapped(before: State, olts: seq<OltConfig>, dials: OltConfig -> bool, s: State)
    requires Converged(before, olts, dials, s)
    ensures forall i :: 0 <= i < |olts| ==> MappedAsDialled(before, olts[i], dials, s)
  {
    forall i | 0 <= i < |olts| ensures MappedAsDialled(before, olts[i], dials, s) {
      DoneIsMapped(before, olts[i], dials, s);
    }
  }

  /** Reconciling the same input again keeps every stack and lifecycle: nothing is retired. */
  lemma ReconcileAgainKeepsAll(before: State, olts: seq<OltConfig>, dials: OltConfig -> bool, mid: State,
                               dials': OltConfig -> bool, after: State, id: string)
    requires Converged(before, olts, dials, mid) && Converged(mid, olts, dials', after) && id in mid.entries
    ensures id in after.entries && after.entries[id].stack == mid.entries[id].stack
    ensures mid.entries[id].lc.Some? ==> after.entries[id] == mid.entries[id]
  {
    assert HasId(olts, id);
    var i :| 0 <= i < |olts| && olts[i].id == id;
    assert OltDone(before, olts[i], dials, mid);
    assert Kept(mid, olts[i]);
    assert OltDone(mid, olts[i], dials', after);
  }

  /** A stack mapped before stays owned exactly when its OLT came in with the same change key;
      otherwise it is closed or has a pending closer. */
  lemma RetiredExactly(before: State, olts: seq<OltConfig>, dials: OltConfig -> bool, after: State, id: string)
    requires Reachable(before) && after.writer.Free?
    requires Converged(before, olts, dials, after) && id in before.entries
    ensures Owned(after, before.entries[id].stack)
      <==> exists i :: 0 <= i < |olts| && olts[i].id == id && Kept(before, olts[i])
  {
    var k := before.entries[id].stack;
    OneEntryPerStack(before, id);
    if i :| 0 <= i < |olts| && olts[i].id == id && Kept(before, olts[i]) {
      assert OltDone(before, olts[i], dials, after);
      assert Maps(after, id, k);
    }
    if Owned(after, k) {
      OwnedWasKept(before, olts, dials, after, id);
    }
  }

  lemma OneEntryPerStack(s: State, id: string)
    requires Reachable(s) && id in s.entries
    ensures s.entries[id].stack < |s.stacks|
    ensures forall id' :: id' in s.entries && s.entries[id'].stack == s.entries[id].stack ==> id' == id
  {
    ReachableInv(s);
    assert EntryLinked(s, id);
  }

  lemma OwnedWasKept(before: State, olts: seq<OltConfig>, dials: OltConfig -> bool, after: State, id: string)
    requires id in before.entries && before.entries[id].stack < |before.stacks|
    requires forall id' :: id' in before.entries && before.entries[id'].stack == before.entries[id].stack ==> id' == id
    requires Converged(before, olts, dials, after) && Owned(after, before.entries[id].stack)
    ensures exists i :: 0 <= i < |olts| && olts[i].id == id && Kept(before, olts[i])
  {
    var id' :| Maps(after, id', before.entries[id].stack);
    assert HasId(olts, id');
    var j :| 0 <= j < |olts| && olts[j].id == id';
    assert OltDone(before, olts[j], dials, after);
  }

  /** For hosts that are not ambiguous, an OLT keeps its stack exactly when nothing that
      matters for the connection changed. */
  lemma KeptIsSameConnection(before: State, o: OltConfig)
    requires o.id in before.entries
    requires IsPort(o.port) && IsPort(before.entries[o.id].olt.port)
    requires !Ambiguous(o.host) && !Ambiguous(before.entries[o.id].olt.host)
    ensures Kept(before, o) <==> SameConnection(before.entries[o.id].olt, o)
  {
    ChangeKeyExact(before.entries[o.id].olt, o);
  }

  /** Entries other than id's are as before, and no stack opened before was replaced. */
  ghost predicate OnlyChanged(s: State, t: State, id: string) {
    && (forall i :: i in s.entries && i != id ==> i in t.entries && t.entries[i] == s.entries[i])
    && (forall i :: i in t.entries && i != id ==> i in s.entries)
    && StacksGrow(s, t)
  }

  ghost predicate StacksGrow(s: State, t: State) {
    && |s.stacks| <= |t.stacks|
    && forall k :: 0 <= k < |s.stacks| ==> t.stacks[k].config == s.stacks[k].config
  }

  /** What is done for one OLT stays done while another OLT is worked on. */
  lemma DoneStays(before: State, o: OltConfig, dials: OltConfig -> bool, s: State, t: State, id: string)
    requires OltDone(before, o, dials, s) && OnlyChanged(s, t, id) && id != o.id
    ensures OltDone(before, o, dials, t)
  {
  }

  /** started gives, for some of the OLTs mapped at s0, the worker reader r has started for each since:
      different workers on their OLTs' stacks, and no other worker. */
  ghost predicate Started(s0: State, s: State, r: nat, started: map<string, nat>) {
    && (forall id :: id in started ==> id in s0.entries && StartedFor(s0, s, r, id, started[id]))
    && (forall id, id' :: id in started && id' in started && started[id] == started[id'] ==> id == id')
    && (forall w :: |s0.workers| <= w < |s.workers| && s.workers[w].reader == r ==> Covers(started, w))
  }

  ghost predicate Covers(started: map<string, nat>, w: nat) {
    exists id :: id in started && started[id] == w
  }

  /** Reader r is at work, and has started just these workers. */
  ghost predicate Starting(s0: State, s: State, r: nat, started: map<string, nat>) {
    && s.writer.Free? && r < |s.readers| && !s.readers[r].Left?
    && EntriesKept(s0, s) && |s.workers| >= |s0.workers| && Started(s0, s, r, started)
  }

  ghost predicate StartedFor(s0: State, s: State, r: nat, id: string, w: nat)
    requires id in s0.entries
  {
    |s0.workers| <= w < |s.workers| && s.workers[w].reader == r && s.workers[w].stack == s0.entries[id].stack
  }

  /** The first n of the incoming OLTs are done, and the entries of the others are as before. */
  ghost predicate DoneUpTo(before: State, olts: seq<OltConfig>, n: nat, dials: OltConfig -> bool, s: State)
    requires n <= |olts|
  {
    && (forall i :: 0 <= i < n ==> OltDone(before, olts[i], dials, s))
    && forall i :: n <= i < |olts| ==> SameEntry(before, s, olts[i].id)
  }

  ghost predicate SameEntry(before: State, s: State, id: string) {
    (id in s.entries <==> id in before.entries) && (id in s.entries ==> s.entries[id] == before.entries[id])
  }

  lemma AllDoneStay(before: State, olts: seq<OltConfig>, n: nat, dials: OltConfig -> bool, s: State, t: State)
    requires UniqueIds(olts) && n < |olts| && DoneUpTo(before, olts, n, dials, s)
    requires OnlyChanged(s, t, olts[n].id) && OltDone(before, olts[n], dials, t)
    ensures DoneUpTo(before, olts, n + 1, dials, t)
  {
    forall i | 0 <= i < n ensures OltDone(before, olts[i], dials, t) {
      DoneStays(before, olts[i], dials, s, t, olts[n].id);
    }
    forall i | n < i < |olts| ensures SameEntry(before, t, olts[i].id) {
      assert SameEntry(before, s, olts[i].id);
    }
  }

  /** Every OLT mapped at s0 is either still to be visited or has its worker. */
  ghost predicate KeysAre(s0: State, rest: set<string>, started: map<string, nat>) {
    started.Keys + rest == s0.entries.Keys
  }

  ghost predicate NotStarted(rest: set<string>, started: map<string, nat>) {
    forall id :: id in rest ==> id !in started
  }

  lemma KeysNext(s0: State, rest: set<string>, id: string, before: map<string, nat>, started: map<string, nat>)
    requires KeysAre(s0, rest, before) && NotStarted(rest, before) && id in rest
    requires started.Keys == before.Keys + {id}
    ensures KeysAre(s0, rest - {id}, started) && NotStarted(rest - {id}, started)
  {
  }

  lemma KeysDone(s0: State, started: map<string, nat>)
    requires KeysAre(s0, {}, started)
    ensures started.Keys == s0.entries.Keys
  {
  }

  /** Of the OLTs mapped before, those that are not incoming are removed, except the ones still to be
      visited; the others are as before. */
  ghost predicate RemovedBut(before: State, s: State, rest: set<string>, incoming: set<string>) {
    && rest <= s.entries.Keys
    && (forall id :: id in s.entries <==> id in before.entries && (id in rest || id in incoming))
    && forall id :: id in s.entries ==> s.entries[id] == before.entries[id]
  }

  lemma RemovedNext(before: State, s: State, t: State, rest: set<string>, incoming: set<string>, id: string)
    requires RemovedBut(before, s, rest, incoming) && id in rest
    requires if id in incoming then t == s else OnlyChanged(s, t, id) && id !in t.entries
    ensures RemovedBut(before, t, rest - {id}, incoming)
  {
  }

  lemma StartedStays(s0: State, s: State, t: State, r: nat, started: map<string, nat>)
    requires Started(s0, s, r, started) && WorkersKeptFrom(s, t, r)
    ensures Started(s0, t, r, started)
  {
    forall id | id in started ensures StartedFor(s0, t, r, id, started[id]) {
      assert StartedFor(s0, s, r, id, started[id]);
    }
  }

  lemma StartsWithNone(s0: State, r: nat)
    requires Enabled(s0, ReadLock) && r == |s0.readers|
    ensures Starting(s0, Do(s0, ReadLock), r, map[]) && Do(s0, ReadLock).readers[r].Holding?
  {
  }

  lemma LastUnlocked(s0: State, s: State, r: nat, started: map<string, nat>)
    requires Starting(s0, s, r, started) && s.readers[r].Holding?
    ensures Started(s0, Do(s, ReadUnlock(r)), r, started)
  {
    StartedStays(s0, s, Do(s, ReadUnlock(r)), r, started);
  }

  lemma EnsureKeeps(s0: State, s: State, r: nat, id: string, started: map<string, nat>)
    requires Starting(s0, s, r, started) && id in s0.entries
    ensures Enabled(s, EnsureLifecycle(id)) && Starting(s0, Do(s, EnsureLifecycle(id)), r, started)
    ensures Do(s, EnsureLifecycle(id)).readers == s.readers
    ensures Sound(s) ==> HasLifecycle(Do(s, EnsureLifecycle(id)), id)
  {
    StartedStays(s0, s, Do(s, EnsureLifecycle(id)), r, started);
    if Sound(s) {
      EntryFacts(s, id);
    }
  }

  lemma SpawnKeeps(s0: State, s: State, r: nat, started: map<string, nat>)
    requires Starting(s0, s, r, started) && Enabled(s, Spawn(r))
    ensures Starting(s0, Do(s, Spawn(r)), r, started) && Do(s, Spawn(r)).readers[r].Holding?
  {
    StartedStays(s0, s, Do(s, Spawn(r)), r, started);
  }

  lemma StartedNext(s0: State, s: State, r: nat, id: string, started: map<string, nat>)
    requires Starting(s0, s, r, started) && Enabled(s, Count(r, id)) && id !in started && id in s0.entries
    ensures Starting(s0, Do(s, Count(r, id)), r, started[id := |s.workers|])
    ensures Do(s, Count(r, id)).readers[r].Spawning?
  {
    var t, more := Do(s, Count(r, id)), started[id := |s.workers|];
    forall i | i in more ensures i in s0.entries && StartedFor(s0, t, r, i, more[i]) {
      assert i != id ==> StartedFor(s0, s, r, i, started[i]);
    }
    forall w | |s0.workers| <= w < |t.workers| && t.workers[w].reader == r ensures Covers(more, w) {
      if w < |s.workers| {
        assert Covers(started, w);
        var i :| i in started && started[i] == w;
        assert i in more && more[i] == w;
      } else {
        assert id in more && more[id] == w;
      }
    }
  }

  lemma SpawnFacts(s: State, r: nat)
    requires Sound(s) && r < |s.readers| && s.readers[r].Spawning?
    ensures Enabled(s, Spawn(r))
  {
    SoundIsReachable(s);
    ReachableInv(s);
  }

  /** What the poller gets: no answer, an empty inventory, or entries. */
  datatype Fetched = Unreachable | NoInventory | Inventory(entries: seq<OltJson>)

  /** The poll brought an inventory whose entries are complete and have good ids. */
  ghost predicate Usable(fetched: Fetched, legacy: OltConfig) {
    && fetched.Inventory? && Decodable(Entries(fetched.entries), legacy)
    && exists olts :: Describes(Entries(fetched.entries), legacy, olts) && GoodIds(olts)
  }

  /** The single OLT of a configuration without a list: its topology is what the text says. */
  ghost predicate SingleOlt(legacy: OltConfig, boards: string, single: OltConfig) {
    && single == legacy.(boards := single.boards, boardPons := single.boardPons, boardPonMap := single.boardPonMap)
    && SpecsOf(ParseParts(Split(boards, ',')), ClampPons(legacy.ponsPerBoard), single.boardPons)
    && WellFormed(single)
  }

  method IdsOf(olts: seq<OltConfig>) returns (ids: set<string>)
    ensures forall id :: id in ids <==> HasId(olts, id)
  {
    ids := {};
    for i := 0 to |olts|
      invariant forall id :: id in ids <==> HasId(olts[..i], id)
    {
      HasIdNext(olts, i);
      ids := ids + {olts[i].id};
    }
    assert olts[..|olts|] == olts;
  }

  lemma HasIdNext(olts: seq<OltConfig>, i: nat)
    requires i < |olts|
    ensures forall id :: HasId(olts[..i + 1], id) <==> HasId(olts[..i], id) || id == olts[i].id
  {
    forall id ensures HasId(olts[..i + 1], id) <==> HasId(olts[..i], id) || id == olts[i].id {
      if k :| 0 <= k < i && olts[..i][k].id == id {
        assert olts[..i + 1][k].id == id;
      }
      assert olts[..i + 1][i] == olts[i];
    }
  }

  class OLTRegistry {
    var s: State

    ghost predicate Valid()
      reads this
    {
      Sound(s)
    }

    constructor ()
      ensures Valid() && s == INIT
    {
      s := INIT;
      new;
      ReachesItself(Acts(), WellFormedOpens(), s);
    }

    /** One atomic action of a thread that started in s0. */
    method Perform(ghost s0: State, a: Label)
      requires Valid() && Leads(s0, s) && Enabled(s, a) && WellFormedOpens()(a)
      modifies this
      ensures Valid() && Leads(s0, s) && s == Do(old(s), a)
    {
      ReachesNext(Acts(), Any(), s0, s, a, Do(s, a));
      ReachesNext(Acts(), WellFormedOpens(), INIT, s, a, Do(s, a));
      s := Do(s, a);
    }

    /** The threads with these labels run for a while. Its callers may rely only on its contract. */
    method Others(ghost s0: State, ghost may: Label -> bool)
      requires Valid() && Leads(s0, s)
      modifies this
      ensures Valid() && Leads(s0, s) && Reaches(Acts(), may, old(s), s)
    {
      ReachesItself(Acts(), may, s);
    }

    /** Workers and closers run while this thread holds the write lock. */
    method YieldInLock(ghost s0: State)
      requires Valid() && Leads(s0, s)
      modifies this
      ensures Valid() && Leads(s0, s) && WriterSees(old(s), s)
    {
      ghost var before := s;
      Others(s0, BackgroundLabels());
      BackgroundRun(before, s);
    }

    /** Workers, closers and other readers run while this thread holds the read lock. */
    method YieldInReadLock(ghost s0: State, ghost r: nat)
      requires Valid() && Leads(s0, s) && s.writer.Free? && r < |s.readers| && !s.readers[r].Left?
      modifies this
      ensures Valid() && Leads(s0, s) && ReaderSees(old(s), s, r)
    {
      ghost var before := s;
      Others(s0, NotOfReader(r));
      ReaderRun(before, s, r);
    }

    method CancelWorkers(ghost s0: State, id: string)
      requires Valid() && Leads(s0, s) && s.writer.Editing? && id in s.entries
      modifies this
      ensures Valid() && Leads(s0, s) && s.writer == Retiring(id, Stage.Cancelled) && HasLifecycle(s, id)
      ensures OnlyChanged(old(s), s, id) && s.entries[id].stack == old(s).entries[id].stack
    {
      Perform(s0, EnsureLifecycle(id));
      YieldInLock(s0);
      EntryFacts(s, id);
      Perform(s0, Cancel(id));
      YieldInLock(s0);
    }

    /** Cancels the entry's workers, and closes its pool at once when none is active;
        otherwise a background closer will, after the last one has returned. */
    method RetireEntry(ghost s0: State, id: string)
      requires Valid() && Leads(s0, s) && s.writer.Editing? && id in s.entries
      modifies this
      ensures Valid() && Leads(s0, s) && s.writer == Retiring(id, Settled)
      ensures OnlyChanged(old(s), s, id) && id in s.entries && s.entries[id].stack == old(s).entries[id].stack
    {
      CancelWorkers(s0, id);
      Perform(s0, LoadActive);
      YieldInLock(s0);
      if s.writer.stage.NoneActive? {
        CloseAtOnce(s0, id);
      }
    }

    method CloseAtOnce(ghost s0: State, id: string)
      requires Valid() && Leads(s0, s) && s.writer == Retiring(id, NoneActive) && id in s.entries
      modifies this
      ensures Valid() && Leads(s0, s) && s.writer == Retiring(id, Settled)
      ensures s.entries == old(s).entries && StacksGrow(old(s), s)
    {
      EntryFacts(s, id);
      Perform(s0, CloseNow);
      YieldInLock(s0);
    }

    method RemoveOltLocked(ghost s0: State, id: string)
      requires Valid() && Leads(s0, s) && s.writer.Editing? && id in s.entries
      modifies this
      ensures Valid() && Leads(s0, s) && s.writer.Editing?
      ensures OnlyChanged(old(s), s, id) && id !in s.entries
      ensures !Owned(s, old(s).entries[id].stack)
    {
      RetireEntry(s0, id);
      UnmappedNotOwned(s, id);
      Perform(s0, Unmap);
    }

    method AddOltLocked(ghost s0: State, o: OltConfig, dials: OltConfig -> bool) returns (ok: bool)
      requires Valid() && Leads(s0, s) && s.writer.Editing? && o.id !in s.entries && WellFormed(o)
      modifies this
      ensures Valid() && Leads(s0, s) && s.writer.Editing?
      ensures (ok <==> o.host != "" && o.port != 0 && o.community != "" && dials(o)) && OnlyChanged(old(s), s, o.id)
      ensures if ok then FreshEntry(old(s), o, s) else o.id !in s.entries
    {
      ok := Opens(o, dials);
      if ok {
        Perform(s0, Open(o));
      }
    }

    /** One incoming OLT: opened when new, rebuilt when its change key changed, updated otherwise. */
    method ApplyOlt(ghost s0: State, ghost before: State, o: OltConfig, dials: OltConfig -> bool)
      requires Valid() && Leads(s0, s) && s.writer.Editing? && StacksGrow(before, s) && WellFormed(o)
      requires o.id in s.entries <==> o.id in before.entries
      requires o.id in s.entries ==> s.entries[o.id] == before.entries[o.id]
      modifies this
      ensures Valid() && Leads(s0, s) && s.writer.Editing?
      ensures OnlyChanged(old(s), s, o.id) && OltDone(before, o, dials, s)
    {
      if o.id !in s.entries {
        var ok := AddOltLocked(s0, o, dials);
        return;
      }
      var oldKey := OltChangeKey(s.entries[o.id].olt);
      var newKey := OltChangeKey(o);
      if oldKey != newKey {
        RebuildOlt(s0, o, dials);
      } else {
        UpdateOlt(s0, o);
      }
    }

    /** Replaces an entry and its stack. */
    method RebuildOlt(ghost s0: State, o: OltConfig, dials: OltConfig -> bool)
      requires Valid() && Leads(s0, s) && s.writer.Editing? && o.id in s.entries && WellFormed(o)
      modifies this
      ensures Valid() && Leads(s0, s) && s.writer.Editing? && OnlyChanged(old(s), s, o.id)
      ensures if Opens(o, dials) then FreshEntry(old(s), o, s) else o.id !in s.entries
    {
      RemoveOltLocked(s0, o.id);
      YieldInLock(s0);
      var ok := AddOltLocked(s0, o, dials);
    }

    /** Replaces an entry by an updated copy with the same stack and lifecycle. */
    method UpdateOlt(ghost s0: State, o: OltConfig)
      requires Valid() && Leads(s0, s) && s.writer.Editing? && Kept(s, o)
      modifies this
      ensures Valid() && Leads(s0, s) && s.writer.Editing? && OnlyChanged(old(s), s, o.id)
      ensures KeptEntry(old(s), o, s)
    {
      Perform(s0, EnsureLifecycle(o.id));
      YieldInLock(s0);
      EntryFacts(s, o.id);
      Perform(s0, Replace(o));
    }

    /** Converges to newOlts under the write lock, while workers and closers keep running. */
    method Reconcile(newOlts: seq<OltConfig>, dials: OltConfig -> bool)
      requires Valid() && Enabled(s, Lock) && UniqueIds(newOlts)
      requires forall i :: 0 <= i < |newOlts| ==> WellFormed(newOlts[i])
      modifies this
      ensures Valid() && Leads(old(s), s) && s.writer.Free?
      ensures Converged(old(s), newOlts, dials, s) && StacksGrow(old(s), s)
      ensures forall i :: 0 <= i < |newOlts| ==> MappedAsDialled(old(s), newOlts[i], dials, s)
    {
      ghost var s0 := s;
      ReachesItself(Acts(), Any(), s);
      var incoming := IdsOf(newOlts);
      Perform(s0, Lock);
      RemoveMissing(s0, newOlts, incoming);
      ApplyAll(s0, newOlts, dials);
      Perform(s0, Unlock);
      AllMapped(s0, newOlts, dials, s);
    }

    method RemoveMissing(ghost s0: State, ghost newOlts: seq<OltConfig>, incoming: set<string>)
      requires Valid() && Leads(s0, s) && s.writer.Editing?
      requires s.entries == s0.entries && StacksGrow(s0, s)
      requires forall id :: id in incoming <==> HasId(newOlts, id)
      modifies this
      ensures Valid() && Leads(s0, s) && s.writer.Editing? && StacksGrow(s0, s)
      ensures forall id :: id in s.entries <==> id in s0.entries && HasId(newOlts, id)
      ensures forall id :: id in s.entries ==> s.entries[id] == s0.entries[id]
    {
      var rest := s.entries.Keys;
      while rest != {}
        invariant Valid() && Leads(s0, s) && s.writer.Editing? && StacksGrow(s0, s)
        invariant RemovedBut(s0, s, rest, incoming)
        decreases |rest|
      {
        var id :| id in rest;
        RemoveIfMissing(s0, rest, incoming, id);
        rest := rest - {id};
      }
    }

    method RemoveIfMissing(ghost s0: State, ghost rest: set<string>, incoming: set<string>, id: string)
      requires Valid() && Leads(s0, s) && s.writer.Editing? && StacksGrow(s0, s)
      requires RemovedBut(s0, s, rest, incoming) && id in rest
      modifies this
      ensures Valid() && Leads(s0, s) && s.writer.Editing? && StacksGrow(s0, s)
      ensures RemovedBut(s0, s, rest - {id}, incoming)
    {
      ghost var before := s;
      if id !in incoming {
        RemoveOltLocked(s0, id);
      }
      RemovedNext(s0, before, s, rest, incoming, id);
      YieldInLock(s0);
    }

    method ApplyAll(ghost s0: State, newOlts: seq<OltConfig>, dials: OltConfig -> bool)
      requires Valid() && Leads(s0, s) && s.writer.Editing? && UniqueIds(newOlts) && StacksGrow(s0, s)
      requires forall i :: 0 <= i < |newOlts| ==> WellFormed(newOlts[i])
      requires forall id :: id in s.entries <==> id in s0.entries && HasId(newOlts, id)
      requires forall id :: id in s.entries ==> s.entries[id] == s0.entries[id]
      modifies this
      ensures Valid() && Leads(s0, s) && s.writer.Editing?
      ensures Converged(s0, newOlts, dials, s) && StacksGrow(s0, s)
    {
      for n := 0 to |newOlts|
        invariant Valid() && Leads(s0, s) && s.writer.Editing? && StacksGrow(s0, s)
        invariant DoneUpTo(s0, newOlts, n, dials, s)
        invariant forall id :: id in s.entries ==> HasId(newOlts, id)
      {
        ghost var s1 := s;
        ApplyOlt(s0, s0, newOlts[n], dials);
        AllDoneStay(s0, newOlts, n, dials, s1, s);
      }
    }

    /** Retires every stack. Workers keep running; their pools are closed by background closers. */
    method Close()
      requires Valid() && Enabled(s, Lock)
      modifies this
      ensures Valid() && Leads(old(s), s) && s.writer.Free? && s.entries == map[]
      ensures StacksGrow(old(s), s)
    {
      ghost var s0 := s;
      ReachesItself(Acts(), Any(), s);
      Perform(s0, Lock);
      var rest := s.entries.Keys;
      while rest != {}
        invariant Valid() && Leads(s0, s) && s.writer.Editing?
        invariant rest == s.entries.Keys
        invariant StacksGrow(s0, s)
        decreases |rest|
      {
        var id :| id in rest;
        rest := rest - {id};
        RemoveOltLocked(s0, id);
      }
      Perform(s0, Unlock);
    }

    /** Starts exactly one tracked worker per mapped OLT under the read lock. */
    method GoForEach() returns (ghost started: map<string, nat>)
      requires Valid() && Enabled(s, ReadLock)
      modifies this
      ensures Valid() && Leads(old(s), s)
      ensures started.Keys == old(s).entries.Keys && Started(old(s), s, |old(s).readers|, started)
    {
      ghost var s0 := s;
      ReachesItself(Acts(), Any(), s);
      var r := |s.readers|;
      StartsWithNone(s0, r);
      Perform(s0, ReadLock);
      started := StartWorkers(s0, r);
      LastUnlocked(s0, s, r, started);
      Perform(s0, ReadUnlock(r));
    }

    method StartWorkers(ghost s0: State, r: nat) returns (ghost started: map<string, nat>)
      requires Valid() && Leads(s0, s) && Starting(s0, s, r, map[]) && s.readers[r].Holding? && s.entries == s0.entries
      modifies this
      ensures Valid() && Leads(s0, s) && Starting(s0, s, r, started) && s.readers[r].Holding?
      ensures started.Keys == s0.entries.Keys
    {
      started := map[];
      var rest := s.entries.Keys;
      while rest != {}
        invariant Valid() && Leads(s0, s) && Starting(s0, s, r, started) && s.readers[r].Holding?
        invariant rest <= s0.entries.Keys && NotStarted(rest, started) && KeysAre(s0, rest, started)
        decreases |rest|
      {
        var id :| id in rest;
        ghost var before := started;
        started := StartWorker(s0, r, id, started);
        KeysNext(s0, rest, id, before, started);
        rest := rest - {id};
      }
      KeysDone(s0, started);
    }

    method StartWorker(ghost s0: State, r: nat, id: string, ghost started: map<string, nat>)
      returns (ghost more: map<string, nat>)
      requires Valid() && Leads(s0, s) && Starting(s0, s, r, started) && s.readers[r].Holding?
      requires id in s0.entries && id !in started
      modifies this
      ensures Valid() && Leads(s0, s) && Starting(s0, s, r, more) && s.readers[r].Holding?
      ensures more.Keys == started.Keys + {id}
    {
      EnsureFor(s0, r, id, started);
      more := CountFor(s0, r, id, started);
      SpawnFor(s0, r, more);
    }

    method EnsureFor(ghost s0: State, r: nat, id: string, ghost started: map<string, nat>)
      requires Valid() && Leads(s0, s) && Starting(s0, s, r, started) && s.readers[r].Holding? && id in s0.entries
      modifies this
      ensures Valid() && Leads(s0, s) && Starting(s0, s, r, started) && s.readers[r].Holding? && HasLifecycle(s, id)
    {
      EnsureKeeps(s0, s, r, id, started);
      Perform(s0, EnsureLifecycle(id));
      StartingYield(s0, r, id, started);
    }

    method CountFor(ghost s0: State, r: nat, id: string, ghost started: map<string, nat>)
      returns (ghost more: map<string, nat>)
      requires Valid() && Leads(s0, s) && Starting(s0, s, r, started) && s.readers[r].Holding?
      requires HasLifecycle(s, id) && id in s0.entries && id !in started
      modifies this
      ensures Valid() && Leads(s0, s) && Starting(s0, s, r, more) && s.readers[r].Spawning?
      ensures more.Keys == started.Keys + {id}
    {
      StartedNext(s0, s, r, id, started);
      more := started[id := |s.workers|];
      Perform(s0, Count(r, id));
    }

    method SpawnFor(ghost s0: State, r: nat, ghost started: map<string, nat>)
      requires Valid() && Leads(s0, s) && Starting(s0, s, r, started) && s.readers[r].Spawning?
      modifies this
      ensures Valid() && Leads(s0, s) && Starting(s0, s, r, started) && s.readers[r].Holding?
    {
      StartingYield(s0, r, "", started);
      SpawnFacts(s, r);
      SpawnKeeps(s0, s, r, started);
      Perform(s0, Spawn(r));
    }

    method StartingYield(ghost s0: State, r: nat, id: string, ghost started: map<string, nat>)
      requires Valid() && Leads(s0, s) && Starting(s0, s, r, started)
      modifies this
      ensures Valid() && Leads(s0, s) && Starting(s0, s, r, started) && s.readers[r] == old(s).readers[r]
      ensures HasLifecycle(old(s), id) ==> HasLifecycle(s, id)
    {
      ghost var before := s;
      YieldInReadLock(s0, r);
      StartedStays(s0, before, s, r, started);
      if HasLifecycle(before, id) {
        EntryFacts(s, id);
      }
    }

    /** In every state of the registry each entry's validator and OID map agree. */
    lemma ValidatorsAgree(id: string, boardText: string, ponText: string)
      requires Valid() && id in s.entries
      ensures ValidatorAgrees(s, id, boardText, ponText)
    {
      ValidatorAgreesInEveryState(s, id, boardText, ponText);
    }

    /** One tick of the poller: a failed fetch, an empty inventory and an invalid one change nothing. */
    method Poll(fetched: Fetched, legacy: OltConfig, dials: OltConfig -> bool)
      requires Valid() && Enabled(s, Lock) && legacy.id == ""
      modifies this
      ensures Valid() && Leads(old(s), s)
      ensures !Usable(fetched, legacy) ==> s == old(s)
      ensures Usable(fetched, legacy) ==>
        exists olts :: Describes(Entries(fetched.entries), legacy, olts) && Converged(old(s), olts, dials, s)
    {
      ReachesItself(Acts(), Any(), s);
      match fetched {
        case Unreachable =>
        case NoInventory =>
        case Inventory(entries) =>
          var r := BuildOltRegistry(Entries(entries), "", legacy);
          if r.Registry? {
            forall i | 0 <= i < |r.olts| ensures WellFormed(r.olts[i]) {
              DescribedAreWellFormed(Entries(entries), legacy, r.olts, i);
            }
            Reconcile(r.olts, dials);
          }
      }
    }

    /** Startup: the configured source, or the single OLT whose topology is read from its own text. */
    method Start(source: Source, defaultEnv: string, legacy: OltConfig, boards: string, dials: OltConfig -> bool)
      returns (error: Option<Error>)
      requires Valid() && Enabled(s, Lock)
      modifies this
      ensures Valid() && Leads(old(s), s)
      ensures error.Some? ==> s == old(s)
      ensures error.None? ==>
        exists single, olts :: SingleOlt(legacy, boards, single) && Describes(source, single, olts)
                               && GoodIds(olts) && Converged(old(s), olts, dials, s)
    {
      ReachesItself(Acts(), Any(), s);
      var slots, pons := ParseBoardSpecs(boards, legacy.ponsPerBoard);
      var oids := InitializeBoardPonMapFromSpecs(pons);
      assert oids.Some?;
      var single := legacy.(boards := slots, boardPons := pons, boardPonMap := oids.value);
      var r := BuildOltRegistry(source, defaultEnv, single);
      if r.Failed? {
        return Some(r.error);
      }
      forall i | 0 <= i < |r.olts| ensures WellFormed(r.olts[i]) {
        DescribedAreWellFormed(source, single, r.olts, i);
      }
      Reconcile(r.olts, dials);
      assert SingleOlt(legacy, boards, single) && Describes(source, single, r.olts) && Converged(old(s), r.olts, dials, s);
      error := None;
    }
  }
}

/** The trap batcher as the object its callers share: per-severity nested maps under a mutex.
    Each method is the code of one thread, with a yield wherever it does not hold the lock, and is
    shown to be a run of BatcherProtocol; the nested maps always hold exactly its simple map. */
module Batcher {
  import opened Text
  import opened TrapEvents
  import opened Runs
  import opened BatcherProtocol
  import opened BatcherFlush

  datatype BatcherEntry = BatcherEntry(event: Event, lastNotified: Option<Time>)

  type Groups = map<Severity, map<Key, BatcherEntry>>

  predicate InGroup(groups: Groups, sev: Severity, k: Key) {
    sev in groups && k in groups[sev]
  }

  predicate SameEntry(g: Groups, g': Groups, sev: Severity, k: Key) {
    (InGroup(g', sev, k) <==> InGroup(g, sev, k)) && (InGroup(g, sev, k) ==> g'[sev][k] == g[sev][k])
  }

  /** The nested maps partition the simple map: an ONU is in the group of its severity and in no other. */
  ghost predicate Partitions(groups: Groups, queue: map<Key, Item>) {
    forall sev, k ::
      && (InGroup(groups, sev, k) <==> Queued(queue, sev, k))
      && (InGroup(groups, sev, k) ==> groups[sev][k] == BatcherEntry(queue[k].event, queue[k].last))
  }

  /** The event is in its severity's group and in no other; last-notified survives only there, and every
      other ONU's entries are as before. */
  ghost predicate Moved(g: Groups, g': Groups, sev: Severity, key: Key, event: Event) {
    && InGroup(g', sev, key) && g'[sev][key].event == event
    && g'[sev][key].lastNotified == (if InGroup(g, sev, key) then g[sev][key].lastNotified else None)
    && (forall s :: s != sev ==> !InGroup(g', s, key))
    && (forall s, k :: k != key ==> SameEntry(g, g', s, k))
  }

  // ----- runs

  ghost predicate Reachable(env: Env, s: State) {
    exists now :: Reaches(Acts(env), Any(), InitState(now), s)
  }

  lemma ReachableStep(env: Env, s: State, a: Label)
    requires Reachable(env, s) && Enabled(s, a)
    ensures Reachable(env, Do(env, s, a))
  {
    var now :| Reaches(Acts(env), Any(), InitState(now), s);
    ReachesNext(Acts(env), Any(), InitState(now), s, a, Do(env, s, a));
  }

  lemma ReachableBatchInv(env: Env, s: State)
    requires Reachable(env, s)
    ensures BatchInv(env, s)
  {
    var now :| Reaches(Acts(env), Any(), InitState(now), s);
    InitBatchInv(env, now);
    BatchInvInductive(env);
    ReachesInduction(Acts(env), Any(), InitState(now), s, BatchInvHolds(env));
  }

  lemma MarkingIsGood(env: Env, s: State, sev: Severity)
    requires Reachable(env, s) && FlushOf(s, sev).Marking?
    ensures GoodBatch(env, sev, FlushOf(s, sev).batch) && FlushOf(s, sev).batch != []
  {
    ReachableBatchInv(env, s);
    assert GoodFlush(env, sev, FlushOf(s, sev));
  }

  class Batcher {
    const env: Env
    var groups: Groups
    var now: Time
    ghost var m: State

    ghost predicate Valid()
      reads this
    {
      Reachable(env, m) && Partitions(groups, m.queue) && now == m.now
    }

    constructor (env: Env, now: Time)
      ensures Valid() && this.env == env && m == InitState(now)
    {
      this.env := env;
      this.now := now;
      groups := map[];
      m := InitState(now);
      new;
      ReachesItself(Acts(env), Any(), m);
    }

    /** Records one critical section or local step of a thread that started in m0. */
    ghost method Perform(m0: State, may: Label -> bool, a: Label)
      requires Reachable(env, m) && Reaches(Acts(env), may, m0, m) && Enabled(m, a) && may(a)
      modifies this`m
      ensures Reachable(env, m) && Reaches(Acts(env), may, m0, m) && m == Do(env, old(m), a)
    {
      ReachesNext(Acts(env), may, m0, m, a, Do(env, m, a));
      ReachableStep(env, m, a);
      m := Do(env, m, a);
    }

    /** The threads with these labels run for a while. Its callers may rely only on its contract. */
    method Others(ghost may: Label -> bool)
      requires Valid()
      modifies this
      ensures Valid() && Reaches(Acts(env), may, old(m), m)
    {
      ReachesItself(Acts(env), may, m);
    }

    /** Every thread but the flush of sev runs, and time passes. */
    method Yield(ghost m0: State, ghost may: Label -> bool, sev: Severity)
      requires Valid() && Reaches(Acts(env), may, m0, m) && forall a :: NotOfFlush(sev)(a) ==> may(a)
      modifies this
      ensures Valid() && Reaches(Acts(env), may, m0, m) && FlushOf(m, sev) == FlushOf(old(m), sev)
    {
      ghost var before := m;
      Others(NotOfFlush(sev));
      OthersKeepFlush(env, before, m, sev);
      ReachesMore(Acts(env), may, NotOfFlush(sev), m0, before, m);
    }

    /** Queues an event: out of every other severity's group, into its own. */
    method Add(event: Event)
      requires Valid()
      modifies this
      ensures Valid() && m == Do(env, old(m), BatcherProtocol.Add(event))
      ensures Moved(old(groups), groups, EventSeverity(event.eventType), OnuKey(event), event)
    {
      ghost var g0 := groups;
      var sev, key := EventSeverity(event.eventType), OnuKey(event);
      DeleteFrom(key, groups.Keys - {sev});
      ghost var g1 := groups;
      Insert(sev, key, event);
      AddPartitions(g0, g1, groups, m.queue, sev, key, event, m.nextEpoch);
      InsertedMoves(g0, g1, sev, key, event);
      ReachesItself(Acts(env), Any(), m);
      Perform(m, Any(), BatcherProtocol.Add(event));
    }

    /** Puts the event into the severity's group; an entry that is there keeps when it was last notified. */
    method Insert(sev: Severity, key: Key, event: Event)
      modifies this`groups
      ensures groups == Inserted(old(groups), sev, key, event)
    {
      if sev !in groups {
        groups := groups[sev := map[]];
      }
      var entry := if key in groups[sev] then groups[sev][key].(event := event) else BatcherEntry(event, None);
      groups := groups[sev := groups[sev][key := entry]];
    }

    /** Deletes the ONU from every severity's group. */
    method Remove(event: Event)
      requires Valid()
      modifies this
      ensures Valid() && m == Do(env, old(m), BatcherProtocol.Remove(event))
      ensures forall s :: !InGroup(groups, s, OnuKey(event))
      ensures forall s, k :: k != OnuKey(event) ==> SameEntry(old(groups), groups, s, k)
    {
      DeleteFrom(OnuKey(event), groups.Keys);
      ReachesItself(Acts(env), Any(), m);
      Perform(m, Any(), BatcherProtocol.Remove(event));
    }

    /** Deletes a key from the groups of the given severities, in any order. */
    method DeleteFrom(key: Key, sevs: set<Severity>)
      modifies this`groups
      ensures Deleted(old(groups), groups, {key}, sevs)
    {
      var rest := sevs;
      while rest != {}
        invariant rest <= sevs && Deleted(old(groups), groups, {key}, sevs - rest)
        decreases |rest|
      {
        var s :| s in rest;
        ghost var before, done := groups, sevs - rest;
        if s in groups {
          groups := groups[s := groups[s] - {key}];
        }
        DeletedSeverity(old(groups), before, key, done, s);
        assert sevs - (rest - {s}) == done + {s};
        rest := rest - {s};
      }
    }
  
    /** Sends everything due in one severity. answers gives what the fetcher returns about an ONU, which a flush
        asks for at most once. The lock is dropped between the ONUs, so everything else keeps running. */
    method FlushSeverity(sev: Severity, answers: Key -> Option<Detail>) returns (sent: seq<Notice>, ghost run: seq<State>)
      requires Valid() && FlushOf(m, sev).Idle?
      modifies this
      ensures Valid() && FlushOf(m, sev).Idle?
      ensures if forall k :: k in old(m).queue ==> old(m).queue[k].sev != sev then sent == [] && m == old(m)
              else Flushed(env, old(m), run, m, sev, answers, sent)
      ensures GoodBatch(env, sev, sent)
      ensures sent != [] ==> LogEndsWith(m.log, sev, sent, now)
    {
      if sev !in groups || groups[sev] == map[] {
        NoneQueued(groups, m.queue, sev);
        assert forall k :: k in m.queue && m.queue[k].sev == sev ==> k in KeysOf(m.queue, sev);
        return [], [];
      }
      SomeQueued(groups, m.queue, sev);
      var keys := SomeOrder(groups[sev].Keys);
      SnapshotKeys(groups, m.queue, sev);
      ReachesItself(Acts(env), Any(), m);
      Perform(m, Any(), Begin(sev));
      ghost var begun := m;
      ReachesItself(Acts(env), Judging(sev, answers), m);
      var drop: seq<Key>;
      sent, drop := ReadKeys(begun, sev, keys, answers);
      Yield(begun, Judging(sev, answers), sev);
      run := RunOf(begun, m, sev, answers);
      FinishFlush(sev, drop, sent);
    }

    /** The states of the reading phase. */
    lemma RunOf(s: State, t: State, sev: Severity, answers: Key -> Option<Detail>) returns (run: seq<State>)
      requires Reaches(Acts(env), Judging(sev, answers), s, t)
      ensures IsRun(Acts(env), Judging(sev, answers), run) && run[0] == s && run[|run| - 1] == t
    {
      run :| IsRun(Acts(env), Judging(sev, answers), run) && run[0] == s && run[|run| - 1] == t;
    }

    /** The end of a flush: drops what failed, then marks what is sent. */
    method FinishFlush(sev: Severity, drop: seq<Key>, sent: seq<Notice>)
      requires Valid() && FlushOf(m, sev) == Reading({}, None, ToSet(drop), sent)
      modifies this
      ensures Valid() && Finished(env, old(m), m, sev, sent) && FlushOf(m, sev).Idle?
      ensures GoodBatch(env, sev, sent)
      ensures sent != [] ==> LogEndsWith(m.log, sev, sent, now)
    {
      ghost var judged := m;
      CleanUp(sev, drop, sent);
      ghost var dropped := m;
      ReachesItself(Acts(env), NotOfFlush(sev), m);
      if sent != [] {
        MarkingIsGood(env, m, sev);
        Yield(dropped, NotOfFlush(sev), sev);
        ghost var cleaned := m;
        MarkSent(sev, sent);
        FinishedHere(env, judged, cleaned, m, sev, ToSet(drop), sent);
      } else {
        FinishedHere(env, judged, m, m, sev, ToSet(drop), sent);
        assert GoodBatch(env, sev, sent);
      }
    }

    method CleanUp(sev: Severity, drop: seq<Key>, ghost batch: seq<Notice>)
      requires Valid() && FlushOf(m, sev) == Reading({}, None, ToSet(drop), batch)
      modifies this
      ensures Valid() && now == old(now) && m == Do(env, old(m), Cleanup(sev))
      ensures FlushOf(m, sev) == if batch == [] then Idle else Marking(batch)
    {
      ghost var before := groups;
      DropKeys(sev, drop);
      DropPartitions(before, groups, m.queue, sev, ToSet(drop));
      ReachesItself(Acts(env), Any(), m);
      Perform(m, Any(), Cleanup(sev));
    }

    method MarkSent(sev: Severity, sent: seq<Notice>)
      requires Valid() && FlushOf(m, sev) == Marking(sent) && sent != []
      modifies this
      ensures Valid() && now == old(now) && m == Do(env, old(m), Mark(sev))
      ensures FlushOf(m, sev).Idle? && LogEndsWith(m.log, sev, sent, now)
    {
      ghost var before := groups;
      MarkKeys(sev, sent);
      ghost var marked :| Marked(before, marked, sev, sent, sent, now)
        && if env.repeat(sev) > 0 then groups == marked else Deleted(marked, groups, ToSet(KeysOfBatch(sent)), {sev});
      MarkPartitions(before, marked, groups, m.queue, sev, sent, now, env.repeat(sev) > 0);
      SentKeys(m.log, m.queue, sev, sent, now);
      ReachesItself(Acts(env), Any(), m);
      Perform(m, Any(), Mark(sev));
    }

    /** Reads and judges the snapshotted keys one by one. */
    method ReadKeys(ghost m0: State, sev: Severity, keys: seq<Key>, answers: Key -> Option<Detail>)
      returns (batch: seq<Notice>, drop: seq<Key>)
      requires Valid() && Reaches(Acts(env), Judging(sev, answers), m0, m) && Distinct(keys)
      requires FlushOf(m, sev) == Reading(ToSet(keys), None, {}, [])
      modifies this
      ensures Valid() && Reaches(Acts(env), Judging(sev, answers), m0, m)
      ensures FlushOf(m, sev) == Reading({}, None, ToSet(drop), batch)
    {
      batch, drop := [], [];
      for i := 0 to |keys|
        invariant Valid() && Reaches(Acts(env), Judging(sev, answers), m0, m)
        invariant FlushOf(m, sev) == Reading(ToSet(keys[i..]), None, ToSet(drop), batch)
      {
        NextKey(keys, i);
        Yield(m0, Judging(sev, answers), sev);
        batch, drop := ReadKey(m0, sev, keys[i], answers, ToSet(keys[i..]), batch, drop);
      }
      assert keys[|keys|..] == [];
    }

    method ReadKey(ghost m0: State, sev: Severity, key: Key, answers: Key -> Option<Detail>, ghost todo: set<Key>,
                   batch: seq<Notice>, drop: seq<Key>)
      returns (batch': seq<Notice>, drop': seq<Key>)
      requires Valid() && Reaches(Acts(env), Judging(sev, answers), m0, m) && key in todo
      requires FlushOf(m, sev) == Reading(todo, None, ToSet(drop), batch)
      modifies this
      ensures Valid() && Reaches(Acts(env), Judging(sev, answers), m0, m)
      ensures FlushOf(m, sev) == Reading(todo - {key}, None, ToSet(drop'), batch')
    {
      batch', drop' := batch, drop;
      assert InGroup(groups, sev, key) <==> Queued(m.queue, sev, key);
      if !InGroup(groups, sev, key) {
        Perform(m0, Judging(sev, answers), Read(sev, key));
        return;
      }
      var entry := groups[sev][key];
      Perform(m0, Judging(sev, answers), Read(sev, key));
      Yield(m0, Judging(sev, answers), sev);
      if Due(env, sev, entry.lastNotified, now) {
        match Verdict(env, sev, entry.event, answers(key)) {
          case None =>
            drop' := drop + [key];
            assert ToSet(drop') == ToSet(drop) + {key};
          case Some(e) =>
            batch' := batch + [Notice(key, e)];
        }
      }
      Perform(m0, Judging(sev, answers), Judge(sev, key, answers(key)));
    }

    /** Deletes the dropped keys from the severity's group. */
    method DropKeys(sev: Severity, drop: seq<Key>)
      modifies this`groups
      ensures Deleted(old(groups), groups, ToSet(drop), {sev})
    {
      for i := 0 to |drop|
        invariant Deleted(old(groups), groups, ToSet(drop[..i]), {sev})
      {
        ghost var before := groups;
        if sev in groups {
          groups := groups[sev := groups[sev] - {drop[i]}];
        }
        DeletedKey(old(groups), before, ToSet(drop[..i]), drop[i], sev);
        assert ToSet(drop[..i + 1]) == ToSet(drop[..i]) + {drop[i]};
      }
      assert drop[..|drop|] == drop;
    }

    /** Stamps the sent keys that are still in the group and writes their events back,
        then deletes them again when the severity does not repeat. */
    method MarkKeys(sev: Severity, sent: seq<Notice>)
      requires sent != []
      modifies this`groups
      ensures exists g ::
        && Marked(old(groups), g, sev, sent, sent, now)
        && (if env.repeat(sev) > 0 then groups == g else Deleted(g, groups, ToSet(KeysOfBatch(sent)), {sev}))
    {
      StampKeys(sev, sent);
      if env.repeat(sev) <= 0 {
        DropKeys(sev, KeysOfBatch(sent));
      }
    }

    method StampKeys(sev: Severity, sent: seq<Notice>)
      requires sent != []
      modifies this`groups
      ensures Marked(old(groups), groups, sev, sent, sent, now)
    {
      for i := 0 to |sent|
        invariant Marked(old(groups), groups, sev, sent, sent[..i], now)
      {
        ghost var before := groups;
        StampKey(sev, sent, sent[i].key);
        MarkedKey(old(groups), before, groups, sev, sent, i, now);
      }
      assert sent[..|sent|] == sent;
    }

    method StampKey(sev: Severity, sent: seq<Notice>, key: Key)
      requires sent != []
      modifies this`groups
      ensures groups == Stamped(old(groups), sev, key, BatcherEntry(EventFor(sent, key, sent[0].event), Some(now)))
    {
      if InGroup(groups, sev, key) {
        var event := FindEvent(sent, key);
        groups := groups[sev := groups[sev][key := BatcherEntry(event, Some(now))]];
      }
    }

    /** The list's event for the key; the list's first event when it has none. */
    method FindEvent(sent: seq<Notice>, key: Key) returns (event: Event)
      requires sent != []
      ensures event == EventFor(sent, key, sent[0].event)
    {
      event := sent[0].event;
      var i := 0;
      while i < |sent| && OnuKey(sent[i].event) != key
        invariant 0 <= i <= |sent|
        invariant EventFor(sent, key, event) == EventFor(sent[i..], key, event)
      {
        i := i + 1;
      }
      if i < |sent| {
        event := sent[i].event;
      }
    }
  }

  // ----- helpers about keys

  function ToSet(keys: seq<Key>): set<Key> {
    set k | k in keys
  }

  ghost predicate Distinct(keys: seq<Key>) {
    forall i, j :: 0 <= i < j < |keys| ==> keys[i] != keys[j]
  }

  /** The keys of a map in the order a range loop happens to visit them. */
  method SomeOrder(ks: set<Key>) returns (keys: seq<Key>)
    ensures ToSet(keys) == ks && Distinct(keys)
  {
    keys := [];
    var rest := ks;
    while rest != {}
      invariant rest <= ks && ToSet(keys) == ks - rest && Distinct(keys)
      decreases |rest|
    {
      var k :| k in rest;
      assert k !in ToSet(keys);
      assert ToSet(keys + [k]) == ToSet(keys) + {k};
      keys := keys + [k];
      rest := rest - {k};
    }
  }

  lemma NextKey(keys: seq<Key>, i: nat)
    requires i < |keys| && Distinct(keys)
    ensures keys[i] in ToSet(keys[i..]) && ToSet(keys[i..]) - {keys[i]} == ToSet(keys[i + 1..])
  {
    assert keys[i..] == [keys[i]] + keys[i + 1..];
  }

  function KeysOfBatch(batch: seq<Notice>): (keys: seq<Key>)
    ensures forall k :: k in keys <==> InBatch(batch, k)
  {
    if batch == [] then []
    else
      var keys := KeysOfBatch(batch[..|batch| - 1]) + [batch[|batch| - 1].key];
      PrefixInBatch(batch, |batch| - 1);
      assert batch[..|batch| - 1 + 1] == batch;
      keys
  }

  lemma PrefixInBatch(batch: seq<Notice>, i: nat)
    requires i < |batch|
    ensures forall k :: InBatch(batch[..i + 1], k) <==> InBatch(batch[..i], k) || k == batch[i].key
    ensures InBatch(batch, batch[i].key)
  {
    forall k ensures InBatch(batch[..i + 1], k) <==> InBatch(batch[..i], k) || k == batch[i].key {
      if j :| 0 <= j < i && batch[..i][j].key == k {
        assert batch[..i + 1][j].key == k;
      }
      assert batch[..i + 1][i] == batch[i];
    }
  }

  /** The log ends with one entry per sent ONU, stamped with this time. */
  ghost predicate LogEndsWith(log: seq<Sent>, sev: Severity, sent: seq<Notice>, at: Time) {
    && |sent| <= |log|
    && forall i :: 0 <= i < |sent| ==>
         var e := log[|log| - |sent| + i]; e.key == sent[i].key && e.sev == sev && e.at == at
  }

  lemma SentKeys(log: seq<Sent>, queue: map<Key, Item>, sev: Severity, batch: seq<Notice>, at: Time)
    ensures LogEndsWith(log + SentNow(queue, sev, batch, at), sev, batch, at)
  {
    SentAll(queue, sev, batch, at);
  }

  // ----- the nested maps stay a partition

  lemma SomeEntry(group: map<Key, BatcherEntry>)
    ensures group == map[] || exists k :: k in group
  {
    if forall k :: k !in group {
      assert group == map[];
    }
  }

  lemma SomeQueued(g: Groups, queue: map<Key, Item>, sev: Severity)
    requires Partitions(g, queue) && sev in g && g[sev] != map[]
    ensures KeysOf(queue, sev) != {}
  {
    SomeEntry(g[sev]);
    var k :| k in g[sev];
    assert InGroup(g, sev, k);
    assert k in KeysOf(queue, sev);
  }

  lemma NoneQueued(g: Groups, queue: map<Key, Item>, sev: Severity)
    requires Partitions(g, queue) && (sev !in g || g[sev] == map[])
    ensures KeysOf(queue, sev) == {}
  {
    forall k ensures k !in KeysOf(queue, sev) {
      assert InGroup(g, sev, k) <==> Queued(queue, sev, k);
    }
  }

  lemma SnapshotKeys(g: Groups, queue: map<Key, Item>, sev: Severity)
    requires Partitions(g, queue) && sev in g
    ensures g[sev].Keys == KeysOf(queue, sev)
  {
    forall k ensures k in g[sev].Keys <==> k in KeysOf(queue, sev) {
      assert InGroup(g, sev, k) <==> Queued(queue, sev, k);
    }
  }

  lemma DropPartitions(g: Groups, g': Groups, queue: map<Key, Item>, sev: Severity, drop: set<Key>)
    requires Partitions(g, queue) && Deleted(g, g', drop, {sev})
    ensures Partitions(g', DropFrom(queue, sev, drop))
  {
    var queue' := DropFrom(queue, sev, drop);
    forall s, k
      ensures InGroup(g', s, k) <==> Queued(queue', s, k)
      ensures InGroup(g', s, k) ==> g'[s][k] == BatcherEntry(queue'[k].event, queue'[k].last)
    {
      assert InGroup(g, s, k) <==> Queued(queue, s, k);
    }
  }

  lemma MarkPartitions(g: Groups, g1: Groups, g2: Groups, queue: map<Key, Item>, sev: Severity,
                       sent: seq<Notice>, at: Time, repeats: bool)
    requires Partitions(g, queue) && sent != [] && Marked(g, g1, sev, sent, sent, at)
    requires if repeats then g2 == g1 else Deleted(g1, g2, ToSet(KeysOfBatch(sent)), {sev})
    ensures Partitions(g2, MarkIn(queue, sev, sent, at, repeats))
  {
    var queue' := MarkIn(queue, sev, sent, at, repeats);
    forall s, k
      ensures InGroup(g2, s, k) <==> Queued(queue', s, k)
      ensures InGroup(g2, s, k) ==> g2[s][k] == BatcherEntry(queue'[k].event, queue'[k].last)
    {
      assert InGroup(g, s, k) <==> Queued(queue, s, k);
      assert InGroup(g1, s, k) <==> InGroup(g, s, k);
    }
  }

  /** g' is g without the given keys in the given severities. */
  ghost predicate Deleted(g: Groups, g': Groups, keys: set<Key>, sevs: set<Severity>) {
    && g'.Keys == g.Keys
    && forall sev, k ::
         && (InGroup(g', sev, k) <==> InGroup(g, sev, k) && !(sev in sevs && k in keys))
         && (InGroup(g', sev, k) ==> g'[sev][k] == g[sev][k])
  }

  /** The groups with one key deleted from one severity. */
  function Without(g: Groups, key: Key, sev: Severity): Groups {
    if sev in g then g[sev := g[sev] - {key}] else g
  }

  lemma WithoutEntries(g: Groups, key: Key, sev: Severity, s: Severity, k: Key)
    ensures var g' := Without(g, key, sev);
      && g'.Keys == g.Keys
      && (InGroup(g', s, k) <==> InGroup(g, s, k) && !(s == sev && k == key))
      && (InGroup(g', s, k) ==> g'[s][k] == g[s][k])
  {
  }

  lemma DeletedSeverity(g: Groups, g1: Groups, key: Key, sevs: set<Severity>, sev: Severity)
    requires Deleted(g, g1, {key}, sevs)
    ensures Deleted(g, Without(g1, key, sev), {key}, sevs + {sev})
  {
    var g2 := Without(g1, key, sev);
    forall s, k
      ensures InGroup(g2, s, k) <==> InGroup(g, s, k) && !(s in sevs + {sev} && k in {key})
      ensures InGroup(g2, s, k) ==> g2[s][k] == g[s][k]
    {
      WithoutEntries(g1, key, sev, s, k);
      assert InGroup(g1, s, k) <==> InGroup(g, s, k) && !(s in sevs && k in {key});
    }
    WithoutEntries(g1, key, sev, sev, key);
  }

  lemma DeletedKey(g: Groups, g1: Groups, keys: set<Key>, key: Key, sev: Severity)
    requires Deleted(g, g1, keys, {sev})
    ensures Deleted(g, Without(g1, key, sev), keys + {key}, {sev})
  {
    var g2 := Without(g1, key, sev);
    forall s, k
      ensures InGroup(g2, s, k) <==> InGroup(g, s, k) && !(s in {sev} && k in keys + {key})
      ensures InGroup(g2, s, k) ==> g2[s][k] == g[s][k]
    {
      WithoutEntries(g1, key, sev, s, k);
      assert InGroup(g1, s, k) <==> InGroup(g, s, k) && !(s in {sev} && k in keys);
    }
    WithoutEntries(g1, key, sev, sev, key);
  }

  /** g' is g with the entries of done stamped and their events written back. */
  ghost predicate Marked(g: Groups, g': Groups, sev: Severity, sent: seq<Notice>, done: seq<Notice>, at: Time)
    requires sent != []
  {
    forall s, k ::
      && (InGroup(g', s, k) <==> InGroup(g, s, k))
      && (InGroup(g', s, k) ==>
            g'[s][k] == if s == sev && InBatch(done, k)
                        then BatcherEntry(EventFor(sent, k, sent[0].event), Some(at)) else g[s][k])
  }

  lemma MarkedKey(g: Groups, g1: Groups, g2: Groups, sev: Severity, sent: seq<Notice>, i: nat, at: Time)
    requires i < |sent| && Marked(g, g1, sev, sent, sent[..i], at)
    requires
      var key := sent[i].key;
      g2 == Stamped(g1, sev, key, BatcherEntry(EventFor(sent, key, sent[0].event), Some(at)))
    ensures Marked(g, g2, sev, sent, sent[..i + 1], at)
  {
    var key := sent[i].key;
    StampedEntries(g1, sev, key, BatcherEntry(EventFor(sent, key, sent[0].event), Some(at)));
    PrefixInBatch(sent, i);
  }

  /** The groups with one queued entry replaced. */
  function Stamped(g: Groups, sev: Severity, key: Key, entry: BatcherEntry): Groups {
    if InGroup(g, sev, key) then g[sev := g[sev][key := entry]] else g
  }

  lemma StampedEntries(g: Groups, sev: Severity, key: Key, entry: BatcherEntry)
    ensures forall s, k ::
      var g' := Stamped(g, sev, key, entry);
      && (InGroup(g', s, k) <==> InGroup(g, s, k))
      && (InGroup(g', s, k) ==> g'[s][k] == if s == sev && k == key then entry else g[s][k])
  {
  }

  function Inserted(g: Groups, sev: Severity, key: Key, event: Event): Groups {
    var group := if sev in g then g[sev] else map[];
    g[sev := group[key := BatcherEntry(event, if key in group then group[key].lastNotified else None)]]
  }

  lemma InsertedMoves(g: Groups, g1: Groups, sev: Severity, key: Key, event: Event)
    requires Deleted(g, g1, {key}, g.Keys - {sev})
    ensures Moved(g, Inserted(g1, sev, key, event), sev, key, event)
  {
    var g2 := Inserted(g1, sev, key, event);
    forall s, k | k != key ensures SameEntry(g, g2, s, k) {
      assert InGroup(g1, s, k) <==> InGroup(g, s, k) && !(s in g.Keys - {sev} && k in {key});
    }
    forall s | s != sev ensures !InGroup(g2, s, key) {
      assert InGroup(g1, s, key) <==> InGroup(g, s, key) && !(s in g.Keys - {sev} && key in {key});
    }
    assert InGroup(g1, sev, key) <==> InGroup(g, sev, key) && !(sev in g.Keys - {sev} && key in {key});
  }

  lemma AddPartitions(g: Groups, g1: Groups, g2: Groups, queue: map<Key, Item>, sev: Severity, key: Key, e: Event, epoch: nat)
    requires Partitions(g, queue) && Deleted(g, g1, {key}, g.Keys - {sev})
    requires sev == EventSeverity(e.eventType) && key == OnuKey(e)
    requires g2 == Inserted(g1, sev, key, e)
    ensures Partitions(g2, AddTo(queue, e, epoch))
  {
    var queue' := AddTo(queue, e, epoch);
    forall s, k
      ensures InGroup(g2, s, k) <==> Queued(queue', s, k)
      ensures InGroup(g2, s, k) ==> g2[s][k] == BatcherEntry(queue'[k].event, queue'[k].last)
    {
      assert InGroup(g, s, k) <==> Queued(queue, s, k);
      assert InGroup(g1, s, k) <==> InGroup(g, s, k) && !(s in g.Keys - {sev} && k == key);
    }
  }
}

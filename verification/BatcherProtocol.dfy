/** The trap batcher as a step system over one simple map from ONU to what is queued for it.
    Every critical section is one step; between them flushes of different severities, Add,
    Remove and the clock interleave freely. */
module BatcherProtocol {
  import opened Text
  import opened TrapEvents
  import opened Runs

  type Key = string

  /** Time in nanoseconds. */
  type Time = int

  /** What is queued for one ONU. epoch numbers the times an ONU newly entered a severity;
      the code does not store it. */
  datatype Item = Item(sev: Severity, event: Event, last: Option<Time>, epoch: nat)

  /** The entry a flush has just copied under the lock. */
  datatype Copy = Copy(key: Key, event: Event, last: Option<Time>)

  /** An event to send, with the key it was read under: the code's list and notifiedKeys in step. */
  datatype Notice = Notice(key: Key, event: Event)

  /** The one flush of a severity: reading its keys one by one, or about to mark what it will send. */
  datatype Flush =
    | Idle
    | Reading(todo: set<Key>, copy: Option<Copy>, drop: set<Key>, batch: seq<Notice>)
    | Marking(batch: seq<Notice>)

  /** One ONU of one sent batch; epoch is None when the ONU was no longer queued in that severity. */
  datatype Sent = Sent(key: Key, sev: Severity, at: Time, epoch: Option<nat>)

  datatype Added = Added(key: Key, sev: Severity)

  datatype Env = Env(lib: Lib, hasFetcher: bool, repeat: Severity -> Time)

  datatype State = State(
    queue: map<Key, Item>,
    flushes: map<Severity, Flush>,
    now: Time,
    log: seq<Sent>,
    adds: seq<Added>,
    nextEpoch: nat)

  datatype Label =
    | Add(event: Event)
    | Remove(event: Event)
    | Begin(sev: Severity)
    | Read(sev: Severity, key: Key)
    | Judge(sev: Severity, key: Key, answer: Option<Detail>)
    | Cleanup(sev: Severity)
    | Mark(sev: Severity)
    | Tick(duration: nat)

  function InitState(now: Time): State {
    State(map[], map[Critical := Idle, High := Idle, Medium := Idle, Low := Idle, Unknown := Idle], now, [], [], 0)
  }

  predicate Queued(queue: map<Key, Item>, sev: Severity, key: Key) {
    key in queue && queue[key].sev == sev
  }

  function FlushOf(s: State, sev: Severity): Flush {
    if sev in s.flushes then s.flushes[sev] else Idle
  }

  // ----- what the critical sections do to the queue

  function KeysOf(queue: map<Key, Item>, sev: Severity): set<Key> {
    set k | k in queue && queue[k].sev == sev
  }

  /** Add: last-notified survives only in the same severity. */
  function AddTo(queue: map<Key, Item>, e: Event, epoch: nat): map<Key, Item> {
    var key, sev := OnuKey(e), EventSeverity(e.eventType);
    if Queued(queue, sev, key) then queue[key := queue[key].(event := e)]
    else queue[key := Item(sev, e, None, epoch)]
  }

  function RemoveFrom(queue: map<Key, Item>, e: Event): map<Key, Item> {
    queue - {OnuKey(e)}
  }

  function DropFrom(queue: map<Key, Item>, sev: Severity, drop: set<Key>): map<Key, Item> {
    queue - (set k | k in queue && queue[k].sev == sev && k in drop)
  }

  predicate InBatch(batch: seq<Notice>, key: Key) {
    exists i :: 0 <= i < |batch| && batch[i].key == key
  }

  /** The batch's event for the key, or the placeholder when it has none. */
  function EventFor(batch: seq<Notice>, key: Key, placeholder: Event): Event {
    if batch == [] then placeholder
    else if OnuKey(batch[0].event) == key then batch[0].event
    else EventFor(batch[1..], key, placeholder)
  }

  /** Marking: every sent ONU still queued in the severity is stamped and gets its event written
      back, or is removed when the severity does not repeat. Nothing is added. */
  function MarkIn(queue: map<Key, Item>, sev: Severity, batch: seq<Notice>, now: Time, repeats: bool): map<Key, Item>
    requires batch != []
  {
    map k | k in queue && (repeats || !(queue[k].sev == sev && InBatch(batch, k))) ::
      if queue[k].sev == sev && InBatch(batch, k) then
        queue[k].(last := Some(now), event := EventFor(batch, k, batch[0].event))
      else queue[k]
  }

  function SentOf(queue: map<Key, Item>, sev: Severity, key: Key, now: Time): Sent {
    Sent(key, sev, now, if Queued(queue, sev, key) then Some(queue[key].epoch) else None)
  }

  function SentNow(queue: map<Key, Item>, sev: Severity, batch: seq<Notice>, now: Time): seq<Sent> {
    if batch == [] then []
    else SentNow(queue, sev, batch[..|batch| - 1], now) + [SentOf(queue, sev, batch[|batch| - 1].key, now)]
  }

  lemma {:induction false} SentAt(queue: map<Key, Item>, sev: Severity, batch: seq<Notice>, now: Time, i: nat)
    requires i < |batch|
    ensures |SentNow(queue, sev, batch, now)| == |batch|
    ensures SentNow(queue, sev, batch, now)[i] == SentOf(queue, sev, batch[i].key, now)
  {
    var n := |batch| - 1;
    if n == 0 {
    } else {
      SentAt(queue, sev, batch[..n], now, if i < n then i else 0);
    }
  }

  lemma SentAll(queue: map<Key, Item>, sev: Severity, batch: seq<Notice>, now: Time)
    ensures |SentNow(queue, sev, batch, now)| == |batch|
    ensures forall i :: 0 <= i < |batch| ==>
      SentNow(queue, sev, batch, now)[i] == SentOf(queue, sev, batch[i].key, now)
  {
    forall i | 0 <= i < |batch|
      ensures |SentNow(queue, sev, batch, now)| == |batch|
      ensures SentNow(queue, sev, batch, now)[i] == SentOf(queue, sev, batch[i].key, now)
    {
      SentAt(queue, sev, batch, now, i);
    }
  }

  /** Never notified, or the repeat interval of the severity has passed. */
  predicate Due(env: Env, sev: Severity, last: Option<Time>, now: Time) {
    last.None? || (env.repeat(sev) > 0 && now - last.value >= env.repeat(sev))
  }

  // ----- steps

  predicate Enabled(s: State, a: Label) {
    match a
    case Add(_) => true
    case Remove(_) => true
    case Begin(sev) => FlushOf(s, sev).Idle? && KeysOf(s.queue, sev) != {}
    case Read(sev, key) =>
      var f := FlushOf(s, sev);
      f.Reading? && f.copy.None? && key in f.todo
    case Judge(sev, key, _) =>
      var f := FlushOf(s, sev);
      f.Reading? && f.copy.Some? && f.copy.value.key == key
    case Cleanup(sev) =>
      var f := FlushOf(s, sev);
      f.Reading? && f.copy.None? && f.todo == {}
    case Mark(sev) =>
      var f := FlushOf(s, sev);
      f.Marking? && f.batch != []
    case Tick(_) => true
  }

  function SetFlush(s: State, sev: Severity, f: Flush): State {
    s.(flushes := s.flushes[sev := f])
  }

  function Verdict(env: Env, sev: Severity, e: Event, answer: Option<Detail>): Option<Event> {
    if env.hasFetcher then Reverify(env.lib, sev, e, answer) else Some(e)
  }

  function JudgedFlush(env: Env, f: Flush, sev: Severity, now: Time, answer: Option<Detail>): Flush
    requires f.Reading? && f.copy.Some?
  {
    var c := f.copy.value;
    if !Due(env, sev, c.last, now) then f.(copy := None)
    else
      match Verdict(env, sev, c.event, answer)
      case None => f.(copy := None, drop := f.drop + {c.key})
      case Some(e) => f.(copy := None, batch := f.batch + [Notice(c.key, e)])
  }

  function Do(env: Env, s: State, a: Label): State
    requires Enabled(s, a)
  {
    match a
    case Add(e) =>
      s.(queue := AddTo(s.queue, e, s.nextEpoch), nextEpoch := s.nextEpoch + 1,
         adds := s.adds + [Added(OnuKey(e), EventSeverity(e.eventType))])
    case Remove(e) => s.(queue := RemoveFrom(s.queue, e))
    case Begin(sev) => SetFlush(s, sev, Reading(KeysOf(s.queue, sev), None, {}, []))
    case Read(sev, key) =>
      var f := FlushOf(s, sev);
      SetFlush(s, sev, f.(todo := f.todo - {key},
                          copy := if Queued(s.queue, sev, key)
                                  then Some(Copy(key, s.queue[key].event, s.queue[key].last)) else None))
    case Judge(sev, _, answer) => SetFlush(s, sev, JudgedFlush(env, FlushOf(s, sev), sev, s.now, answer))
    case Cleanup(sev) =>
      var f := FlushOf(s, sev);
      SetFlush(s, sev, if f.batch == [] then Idle else Marking(f.batch))
        .(queue := DropFrom(s.queue, sev, f.drop))
    case Mark(sev) =>
      var f := FlushOf(s, sev);
      SetFlush(s, sev, Idle)
        .(queue := MarkIn(s.queue, sev, f.batch, s.now, env.repeat(sev) > 0),
          log := s.log + SentNow(s.queue, sev, f.batch, s.now))
    case Tick(d) => s.(now := s.now + d)
  }

  ghost function Acts(env: Env): (State, Label, State) -> bool {
    (s: State, a: Label, t: State) => Enabled(s, a) && t == Do(env, s, a)
  }

  /** Some interleaving of flushes, Adds, Removes and the clock. */
  ghost predicate BatcherRun(env: Env, states: seq<State>) {
    IsRun(Acts(env), Any(), states)
  }

  lemma StepOfRun(env: Env, states: seq<State>, n: nat) returns (a: Label)
    requires BatcherRun(env, states) && n + 1 < |states|
    ensures Enabled(states[n], a) && states[n + 1] == Do(env, states[n], a)
  {
    assert StepAt(Acts(env), Any<Label>(), states, n);
    a :| Any<Label>()(a) && Acts(env)(states[n], a, states[n + 1]);
  }

  // ----- batches

  ghost predicate KeyedQueue(s: State) {
    forall k :: k in s.queue ==> KeyedItem(k, s.queue[k])
  }

  ghost predicate GoodNotice(env: Env, sev: Severity, n: Notice) {
    && OnuKey(n.event) == n.key && EventSeverity(n.event.eventType) == sev
    && (env.hasFetcher && sev != Medium ==> IsAlert(n.event.eventType))
  }

  /** Pairwise different ONUs, all of the flushed severity, and re-verified as alerts when there is a fetcher. */
  ghost predicate GoodBatch(env: Env, sev: Severity, batch: seq<Notice>) {
    && (forall i :: 0 <= i < |batch| ==> GoodNotice(env, sev, batch[i]))
    && DistinctKeys(batch)
  }

  ghost predicate DistinctKeys(batch: seq<Notice>) {
    forall i, j :: 0 <= i < j < |batch| ==> batch[i].key != batch[j].key
  }

  ghost predicate GoodFlush(env: Env, sev: Severity, f: Flush) {
    match f
    case Idle => true
    case Reading(todo, copy, _, batch) =>
      && GoodBatch(env, sev, batch)
      && (forall k :: k in todo ==> !InBatch(batch, k))
      && (copy.Some? ==>
            && copy.value.key !in todo && !InBatch(batch, copy.value.key)
            && OnuKey(copy.value.event) == copy.value.key
            && EventSeverity(copy.value.event.eventType) == sev)
    case Marking(batch) => GoodBatch(env, sev, batch) && batch != []
  }

  ghost predicate BatchInv(env: Env, s: State) {
    KeyedQueue(s) && forall sev :: GoodFlush(env, sev, FlushOf(s, sev))
  }

  /** A sent ONU gets its own event written back; the placeholder never survives. */
  lemma {:induction false} EventForInBatch(env: Env, sev: Severity, batch: seq<Notice>, key: Key, placeholder: Event)
    requires GoodBatch(env, sev, batch) && InBatch(batch, key)
    ensures var e := EventFor(batch, key, placeholder);
      OnuKey(e) == key && EventSeverity(e.eventType) == sev && Notice(key, e) in batch
  {
    assert GoodNotice(env, sev, batch[0]);
    if batch[0].key == key {
    } else {
      var i :| 0 <= i < |batch| && batch[i].key == key;
      assert batch[1..][i - 1] == batch[i];
      assert forall j :: 0 <= j < |batch| - 1 ==> batch[1..][j] == batch[j + 1];
      EventForInBatch(env, sev, batch[1..], key, placeholder);
    }
  }

  predicate KeyedItem(k: Key, x: Item) {
    OnuKey(x.event) == k && EventSeverity(x.event.eventType) == x.sev
  }

  /** What is written back when marking holds its own ONU. */
  lemma KeyedMark(env: Env, s: State, sev: Severity, k: Key)
    requires BatchInv(env, s) && Enabled(s, Mark(sev)) && k in Do(env, s, Mark(sev)).queue
    ensures KeyedItem(k, Do(env, s, Mark(sev)).queue[k])
  {
    var batch := FlushOf(s, sev).batch;
    assert GoodFlush(env, sev, FlushOf(s, sev));
    assert KeyedItem(k, s.queue[k]);
    if s.queue[k].sev == sev && InBatch(batch, k) {
      EventForInBatch(env, sev, batch, k, batch[0].event);
    }
  }

  lemma KeyedAdd(queue: map<Key, Item>, e: Event, epoch: nat, k: Key)
    requires (forall k :: k in queue ==> KeyedItem(k, queue[k])) && k in AddTo(queue, e, epoch)
    ensures KeyedItem(k, AddTo(queue, e, epoch)[k])
  {
  }

  lemma KeyedStep(env: Env, s: State, a: Label)
    requires BatchInv(env, s) && Enabled(s, a)
    ensures KeyedQueue(Do(env, s, a))
  {
    forall k | k in Do(env, s, a).queue ensures KeyedItem(k, Do(env, s, a).queue[k]) {
      if a.Add? {
        KeyedAdd(s.queue, a.event, s.nextEpoch, k);
      } else if a.Mark? {
        KeyedMark(env, s, a.sev, k);
      } else {
        FlushNeverAdds(env, s, a, k);
      }
    }
  }

  lemma BatchAppend(env: Env, sev: Severity, batch: seq<Notice>, n: Notice)
    requires GoodBatch(env, sev, batch) && !InBatch(batch, n.key) && GoodNotice(env, sev, n)
    ensures GoodBatch(env, sev, batch + [n])
    ensures forall k :: InBatch(batch + [n], k) <==> k == n.key || InBatch(batch, k)
  {
    var all := batch + [n];
    assert all[|batch|] == n;
    forall k ensures InBatch(all, k) <==> k == n.key || InBatch(batch, k) {
      if i :| 0 <= i < |batch| && batch[i].key == k {
        assert all[i] == batch[i];
      }
    }
    forall i, j | 0 <= i < j < |all| ensures all[i].key != all[j].key {
      assert InBatch(batch, all[i].key);
    }
  }

  lemma JudgeStep(env: Env, s: State, a: Label)
    requires BatchInv(env, s) && Enabled(s, a) && a.Judge?
    ensures GoodFlush(env, a.sev, FlushOf(Do(env, s, a), a.sev))
  {
    var f := FlushOf(s, a.sev);
    assert GoodFlush(env, a.sev, f);
    var c := f.copy.value;
    var verdict := Verdict(env, a.sev, c.event, a.answer);
    if Due(env, a.sev, c.last, s.now) && verdict.Some? {
      if env.hasFetcher {
        ReverifyKeepsOnu(env.lib, a.sev, c.event, a.answer);
      }
      BatchAppend(env, a.sev, f.batch, Notice(c.key, verdict.value));
    }
  }

  lemma BatchInvStep(env: Env, s: State, a: Label)
    requires BatchInv(env, s) && Enabled(s, a)
    ensures BatchInv(env, Do(env, s, a))
  {
    KeyedStep(env, s, a);
    var t := Do(env, s, a);
    forall sev ensures GoodFlush(env, sev, FlushOf(t, sev)) {
      assert GoodFlush(env, sev, FlushOf(s, sev));
      if a.Judge? && a.sev == sev {
        JudgeStep(env, s, a);
      }
    }
  }

  // ----- what the steps mean for one ONU

  ghost predicate SameItem(s: State, t: State, k: Key) {
    (k in t.queue <==> k in s.queue) && (k in s.queue ==> t.queue[k] == s.queue[k])
  }

  /** Add is an update: the ONU is queued under its new severity with the new event, last-notified
      survives only when the severity is unchanged, no other ONU is touched, and it counts as one Add. */
  lemma AddUpdates(env: Env, s: State, e: Event)
    ensures var t, k := Do(env, s, Add(e)), OnuKey(e);
      && Queued(t.queue, EventSeverity(e.eventType), k) && t.queue[k].event == e
      && t.queue[k].last == (if Queued(s.queue, EventSeverity(e.eventType), k) then s.queue[k].last else None)
      && (forall other :: other != k ==> SameItem(s, t, other))
      && t.adds == s.adds + [Added(k, EventSeverity(e.eventType))] && t.log == s.log && t.flushes == s.flushes
  {
  }

  /** Remove is a delete: the ONU is not queued any more, whatever its severity was, and no other ONU is touched. */
  lemma RemoveDeletes(env: Env, s: State, e: Event)
    ensures var t := Do(env, s, Remove(e));
      && OnuKey(e) !in t.queue
      && (forall other :: other != OnuKey(e) ==> SameItem(s, t, other))
      && t.adds == s.adds && t.log == s.log && t.flushes == s.flushes
  {
  }

  /** Every other step, in particular every step of a flush, only deletes items or refreshes their
      event and last-notified: an ONU that was removed is never brought back. */
  lemma FlushNeverAdds(env: Env, s: State, a: Label, k: Key)
    requires Enabled(s, a) && !a.Add?
    ensures Do(env, s, a).adds == s.adds
    ensures k in Do(env, s, a).queue ==>
      && k in s.queue
      && Do(env, s, a).queue[k].sev == s.queue[k].sev && Do(env, s, a).queue[k].epoch == s.queue[k].epoch
      && (!a.Mark? ==> Do(env, s, a).queue[k] == s.queue[k])
  {
  }

  /** A flush begins with exactly the ONUs queued in its severity. */
  lemma BeginSnapshots(env: Env, s: State, sev: Severity, k: Key)
    requires Enabled(s, Begin(sev))
    ensures var t := Do(env, s, Begin(sev)); var f := FlushOf(t, sev);
      && f.Reading? && f.copy == None && f.drop == {} && f.batch == []
      && (k in f.todo <==> k in s.queue && s.queue[k].sev == sev) && t.queue == s.queue
  {
  }

  /** Cleaning up deletes exactly the ONUs the flush dropped, as far as they are still in its severity. */
  lemma CleanupDrops(env: Env, s: State, sev: Severity, k: Key)
    requires Enabled(s, Cleanup(sev)) && k in s.queue
    ensures var t := Do(env, s, Cleanup(sev));
      if s.queue[k].sev == sev && k in FlushOf(s, sev).drop then k !in t.queue else SameItem(s, t, k)
  {
  }

  /** Marking stamps exactly the sent ONUs still in the severity, or deletes them when nothing repeats,
      and logs one send per ONU of the batch. */
  lemma MarkStamps(env: Env, s: State, sev: Severity, k: Key)
    requires Enabled(s, Mark(sev)) && k in s.queue
    ensures var t := Do(env, s, Mark(sev));
      if s.queue[k].sev != sev || !InBatch(FlushOf(s, sev).batch, k) then SameItem(s, t, k)
      else if env.repeat(sev) <= 0 then k !in t.queue
      else k in t.queue && t.queue[k].sev == sev && t.queue[k].last == Some(s.now)
    ensures |Do(env, s, Mark(sev)).log| == |s.log| + |FlushOf(s, sev).batch|
  {
    SentAll(s.queue, sev, FlushOf(s, sev).batch, s.now);
  }

  /** Over any run, an ONU that is not queued stays out until it is added again. */
  lemma {:induction false} RemovedStaysRemoved(env: Env, states: seq<State>, from: nat, n: nat, k: Key)
    requires BatcherRun(env, states) && from <= n < |states| && k !in states[from].queue
    requires |states[from].adds| <= |states[n].adds|
    requires forall i :: |states[from].adds| <= i < |states[n].adds| ==> states[n].adds[i].key != k
    ensures k !in states[n].queue
  {
    if from == n {
    } else {
      AddsGrow(env, states, from, n - 1);
      StepAddsOnly(env, states, n - 1, k);
      RemovedStaysRemoved(env, states, from, n - 1, k);
    }
  }

  /** Over any run, an ONU stays out from its Remove to its next Add. */
  lemma RemovedUntilAdded(env: Env, states: seq<State>, from: nat, n: nat, e: Event)
    requires BatcherRun(env, states) && from < n < |states| && states[from + 1] == Do(env, states[from], Remove(e))
    requires |states[from].adds| <= |states[n].adds|
    requires forall i :: |states[from].adds| <= i < |states[n].adds| ==> states[n].adds[i].key != OnuKey(e)
    ensures OnuKey(e) !in states[n].queue
  {
    RemoveDeletes(env, states[from], e);
    RemovedStaysRemoved(env, states, from + 1, n, OnuKey(e));
  }

  /** A step leaves the past Adds alone, and queues a new ONU only by adding it. */
  lemma StepAddsOnly(env: Env, states: seq<State>, n: nat, k: Key)
    requires BatcherRun(env, states) && n + 1 < |states|
    ensures |states[n].adds| <= |states[n + 1].adds|
    ensures forall i :: 0 <= i < |states[n].adds| ==> states[n + 1].adds[i] == states[n].adds[i]
    ensures k !in states[n].queue && k in states[n + 1].queue ==>
      |states[n + 1].adds| == |states[n].adds| + 1 && states[n + 1].adds[|states[n].adds|].key == k
  {
    var s, t := states[n], states[n + 1];
    var a := StepOfRun(env, states, n);
    if !a.Add? && k in t.queue {
      FlushNeverAdds(env, s, a, k);
    }
  }

  lemma {:induction false} AddsGrow(env: Env, states: seq<State>, from: nat, n: nat)
    requires BatcherRun(env, states) && from <= n < |states|
    ensures |states[from].adds| <= |states[n].adds|
  {
    if from == n {
    } else {
      AddsGrow(env, states, from, n - 1);
      StepAddsOnly(env, states, n - 1, "");
    }
  }

  /** Every entry a mark step writes back holds its own ONU's event and is of the flushed severity. */
  lemma MarkWritesOwnEvent(env: Env, s: State, sev: Severity, k: Key)
    requires BatchInv(env, s) && Enabled(s, Mark(sev)) && k in Do(env, s, Mark(sev)).queue
    requires s.queue[k].sev == sev && InBatch(FlushOf(s, sev).batch, k)
    ensures var x := Do(env, s, Mark(sev)).queue[k];
      && x.last == Some(s.now) && OnuKey(x.event) == k && EventSeverity(x.event.eventType) == sev
      && Notice(k, x.event) in FlushOf(s, sev).batch
  {
    assert GoodFlush(env, sev, FlushOf(s, sev));
    EventForInBatch(env, sev, FlushOf(s, sev).batch, k, FlushOf(s, sev).batch[0].event);
  }

  /** Every batch of every run has pairwise different ONUs of the flushed severity, re-verified as
      alerts outside the RX-power severity when there is a fetcher. */
  lemma BatchesAreGood(env: Env, now: Time, states: seq<State>, n: nat, sev: Severity)
    requires BatcherRun(env, states) && states[0] == InitState(now) && n < |states|
    requires FlushOf(states[n], sev).Marking?
    ensures GoodBatch(env, sev, FlushOf(states[n], sev).batch) && FlushOf(states[n], sev).batch != []
    ensures DifferentOnus(FlushOf(states[n], sev).batch)
  {
    BatchInvRun(env, now, states, n);
    var batch := FlushOf(states[n], sev).batch;
    assert GoodFlush(env, sev, FlushOf(states[n], sev));
    forall i, j | 0 <= i < j < |batch| ensures !SameOnu(batch[i].event, batch[j].event) {
      assert GoodNotice(env, sev, batch[i]) && GoodNotice(env, sev, batch[j]);
      OnuKeyInjective(batch[i].event, batch[j].event);
    }
  }

  ghost predicate DifferentOnus(batch: seq<Notice>) {
    forall i, j :: 0 <= i < j < |batch| ==> !SameOnu(batch[i].event, batch[j].event)
  }

  ghost function BatchInvHolds(env: Env): State -> bool {
    (s: State) => BatchInv(env, s)
  }

  lemma BatchInvInductive(env: Env)
    ensures forall s, a, t :: BatchInvHolds(env)(s) && Acts(env)(s, a, t) ==> BatchInvHolds(env)(t)
  {
    forall s, a, t | BatchInvHolds(env)(s) && Acts(env)(s, a, t) ensures BatchInvHolds(env)(t) {
      BatchInvStep(env, s, a);
    }
  }

  lemma InitBatchInv(env: Env, now: Time)
    ensures BatchInv(env, InitState(now))
  {
  }

  lemma BatchInvRun(env: Env, now: Time, states: seq<State>, n: nat)
    requires BatcherRun(env, states) && states[0] == InitState(now) && n < |states|
    ensures BatchInv(env, states[n])
  {
    BatchInvInductive(env);
    InitBatchInv(env, now);
    RunInduction(Acts(env), Any(), states, n, BatchInvHolds(env));
  }
}

/** How often the batcher notifies: over every run, repeated sends of an ONU that stays queued are
    spaced by the repeat interval, and without a repeat interval sends never outnumber Adds. */
module BatcherRates {
  import opened Text
  import opened Tally
  import opened TrapEvents
  import opened Runs
  import opened BatcherProtocol

  /** Two sends of the same ONU during one uninterrupted stay in one severity. */
  predicate SameStay(a: Sent, b: Sent) {
    a.key == b.key && a.sev == b.sev && a.epoch.Some? && a.epoch == b.epoch
  }

  ghost predicate EpochsBounded(s: State) {
    && (forall k :: k in s.queue ==>
          s.queue[k].epoch < s.nextEpoch && (s.queue[k].last.Some? ==> s.queue[k].last.value <= s.now))
    && (forall i :: 0 <= i < |s.log| ==>
          s.log[i].at <= s.now && (s.log[i].epoch.Some? ==> s.log[i].epoch.value < s.nextEpoch))
  }

  /** The log entry belongs to the current stay of its ONU. */
  predicate IsCurrent(queue: map<Key, Item>, e: Sent) {
    Queued(queue, e.sev, e.key) && e.epoch == Some(queue[e.key].epoch)
  }

  /** last-notified is not before any send of the current stay. */
  ghost predicate LastIsLatest(s: State) {
    forall i :: 0 <= i < |s.log| && IsCurrent(s.queue, s.log[i]) ==>
      s.queue[s.log[i].key].last.Some? && s.log[i].at <= s.queue[s.log[i].key].last.value
  }

  /** What a flush took as due is still due, unless the ONU was removed or is new. */
  ghost predicate StillDue(env: Env, s: State, sev: Severity) {
    match FlushOf(s, sev)
    case Idle => true
    case Reading(_, copy, _, batch) =>
      && BatchDue(env, s, sev, batch)
      && (copy.Some? && Queued(s.queue, sev, copy.value.key) ==>
            s.queue[copy.value.key].last.None? || s.queue[copy.value.key].last == copy.value.last)
    case Marking(batch) => BatchDue(env, s, sev, batch)
  }

  ghost predicate BatchDue(env: Env, s: State, sev: Severity, batch: seq<Notice>) {
    forall k :: InBatch(batch, k) && Queued(s.queue, sev, k) ==> Due(env, sev, s.queue[k].last, s.now)
  }

  ghost predicate Spaced(env: Env, log: seq<Sent>) {
    forall i, j :: 0 <= i < j < |log| && SameStay(log[i], log[j]) ==>
      env.repeat(log[i].sev) > 0 && log[j].at - log[i].at >= env.repeat(log[i].sev)
  }

  ghost predicate SpacingInv(env: Env, s: State) {
    && BatchInv(env, s) && EpochsBounded(s) && LastIsLatest(s) && Spaced(env, s.log)
    && forall sev :: StillDue(env, s, sev)
  }

  /** A step that is not Mark only removes items, refreshes events, or inserts a never-notified item of a new epoch. */
  lemma QueueStep(env: Env, s: State, a: Label, k: Key)
    requires Enabled(s, a) && !a.Mark? && k in Do(env, s, a).queue
    ensures var x := Do(env, s, a).queue[k];
      || (k in s.queue && x == s.queue[k].(event := x.event))
      || (x.last.None? && x.epoch == s.nextEpoch < Do(env, s, a).nextEpoch)
  {
  }

  lemma EpochsMark(env: Env, s: State, sev: Severity)
    requires EpochsBounded(s) && Enabled(s, Mark(sev))
    ensures EpochsBounded(Do(env, s, Mark(sev)))
  {
    SentAll(s.queue, sev, FlushOf(s, sev).batch, s.now);
  }

  lemma EpochsStep(env: Env, s: State, a: Label)
    requires EpochsBounded(s) && Enabled(s, a)
    ensures EpochsBounded(Do(env, s, a))
  {
    var t := Do(env, s, a);
    if a.Mark? {
      EpochsMark(env, s, a.sev);
    } else {
      forall k | k in t.queue
        ensures t.queue[k].epoch < t.nextEpoch && (t.queue[k].last.Some? ==> t.queue[k].last.value <= t.now)
      {
        QueueStep(env, s, a, k);
      }
    }
  }

  lemma LastStep(env: Env, s: State, a: Label)
    requires SpacingInv(env, s) && Enabled(s, a) && !a.Mark?
    ensures LastIsLatest(Do(env, s, a))
  {
    var t := Do(env, s, a);
    forall i | 0 <= i < |t.log| && IsCurrent(t.queue, t.log[i])
      ensures t.queue[t.log[i].key].last.Some? && t.log[i].at <= t.queue[t.log[i].key].last.value
    {
      QueueStep(env, s, a, t.log[i].key);
      assert IsCurrent(s.queue, s.log[i]);
    }
  }

  /** Due is never lost as long as the item is the same or new. */
  lemma DueLater(env: Env, s: State, a: Label, sev: Severity, batch: seq<Notice>)
    requires BatchDue(env, s, sev, batch) && Enabled(s, a) && !a.Mark?
    ensures BatchDue(env, Do(env, s, a), sev, batch)
  {
    var t := Do(env, s, a);
    forall k | InBatch(batch, k) && Queued(t.queue, sev, k) ensures Due(env, sev, t.queue[k].last, t.now) {
      QueueStep(env, s, a, k);
      assert t.queue[k].last.Some? ==> Queued(s.queue, sev, k);
    }
  }

  lemma CopyLater(env: Env, s: State, a: Label, sev: Severity, copy: Copy)
    requires Queued(s.queue, sev, copy.key) ==>
      s.queue[copy.key].last.None? || s.queue[copy.key].last == copy.last
    requires KeyedQueue(s) && Enabled(s, a) && !a.Mark?
    ensures Queued(Do(env, s, a).queue, sev, copy.key) ==>
      var last := Do(env, s, a).queue[copy.key].last; last.None? || last == copy.last
  {
    if Queued(Do(env, s, a).queue, sev, copy.key) {
      QueueStep(env, s, a, copy.key);
    }
  }

  lemma DueOfJudge(env: Env, s: State, a: Label)
    requires SpacingInv(env, s) && Enabled(s, a) && a.Judge?
    ensures StillDue(env, Do(env, s, a), a.sev)
  {
    var f := FlushOf(s, a.sev);
    var c := f.copy.value;
    assert StillDue(env, s, a.sev) && GoodFlush(env, a.sev, f);
    var verdict := Verdict(env, a.sev, c.event, a.answer);
    if Due(env, a.sev, c.last, s.now) && verdict.Some? {
      var n := Notice(c.key, verdict.value);
      forall k | InBatch(f.batch + [n], k) && Queued(s.queue, a.sev, k) ensures Due(env, a.sev, s.queue[k].last, s.now) {
        var i :| 0 <= i < |f.batch| + 1 && (f.batch + [n])[i].key == k;
        if i < |f.batch| {
          assert f.batch[i].key == k && InBatch(f.batch, k);
        }
      }
    }
  }

  /** The flush of a severity changes only by that severity's own labels. */
  lemma SameFlush(env: Env, s: State, a: Label, sev: Severity)
    requires Enabled(s, a)
    requires !(a.Begin? || a.Read? || a.Judge? || a.Cleanup? || a.Mark?) || a.sev != sev
    ensures FlushOf(Do(env, s, a), sev) == FlushOf(s, sev)
  {
  }

  lemma DueOfOwn(env: Env, s: State, a: Label)
    requires SpacingInv(env, s) && Enabled(s, a) && (a.Begin? || a.Read? || a.Cleanup?)
    ensures StillDue(env, Do(env, s, a), a.sev)
  {
    assert StillDue(env, s, a.sev);
    if !a.Begin? {
      DueLater(env, s, a, a.sev, FlushOf(s, a.sev).batch);
    }
  }

  lemma DueStep(env: Env, s: State, a: Label, sev: Severity)
    requires SpacingInv(env, s) && Enabled(s, a) && !a.Mark?
    ensures StillDue(env, Do(env, s, a), sev)
  {
    assert StillDue(env, s, sev);
    if a.Judge? && a.sev == sev {
      DueOfJudge(env, s, a);
    } else if (a.Begin? || a.Read? || a.Cleanup?) && a.sev == sev {
      DueOfOwn(env, s, a);
    } else {
      SameFlush(env, s, a, sev);
      var f := FlushOf(s, sev);
      if !f.Idle? {
        DueLater(env, s, a, sev, f.batch);
      }
      if f.Reading? && f.copy.Some? {
        CopyLater(env, s, a, sev, f.copy.value);
      }
    }
  }

  // ----- marking

  lemma MarkedItem(queue: map<Key, Item>, sev: Severity, batch: seq<Notice>, now: Time, repeats: bool, k: Key)
    requires batch != [] && k in MarkIn(queue, sev, batch, now, repeats)
    ensures k in queue
    ensures var x := MarkIn(queue, sev, batch, now, repeats)[k];
      && x.sev == queue[k].sev && x.epoch == queue[k].epoch
      && x.last == (if queue[k].sev == sev && InBatch(batch, k) then Some(now) else queue[k].last)
  {
  }

  /** A new log entry comes at least the repeat interval after every earlier one of the same stay. */
  lemma NewSentSpaced(env: Env, s: State, sev: Severity, batch: seq<Notice>, i: nat, m: nat)
    requires LastIsLatest(s) && BatchDue(env, s, sev, batch) && i < |s.log| && m < |batch|
    requires SameStay(s.log[i], SentOf(s.queue, sev, batch[m].key, s.now))
    ensures env.repeat(sev) > 0 && s.now - s.log[i].at >= env.repeat(sev)
  {
    assert InBatch(batch, batch[m].key);
    assert IsCurrent(s.queue, s.log[i]);
  }

  lemma MarkSpacing(env: Env, s: State, sev: Severity, batch: seq<Notice>)
    requires LastIsLatest(s) && Spaced(env, s.log) && BatchDue(env, s, sev, batch) && DistinctKeys(batch)
    ensures Spaced(env, s.log + SentNow(s.queue, sev, batch, s.now))
  {
    var log, n := s.log + SentNow(s.queue, sev, batch, s.now), |s.log|;
    SentAll(s.queue, sev, batch, s.now);
    forall i, j | 0 <= i < j < |log| && SameStay(log[i], log[j])
      ensures env.repeat(log[i].sev) > 0 && log[j].at - log[i].at >= env.repeat(log[i].sev)
    {
      if j >= n {
        assert log[j] == SentOf(s.queue, sev, batch[j - n].key, s.now);
        if i < n {
          NewSentSpaced(env, s, sev, batch, i, j - n);
        }
      }
    }
  }

  lemma MarkLatest(s: State, t: State, sev: Severity, batch: seq<Notice>, repeats: bool)
    requires LastIsLatest(s) && EpochsBounded(s) && batch != []
    requires t.queue == MarkIn(s.queue, sev, batch, s.now, repeats)
    requires t.log == s.log + SentNow(s.queue, sev, batch, s.now)
    ensures LastIsLatest(t)
  {
    var n := |s.log|;
    SentAll(s.queue, sev, batch, s.now);
    forall i | 0 <= i < |t.log| && IsCurrent(t.queue, t.log[i])
      ensures t.queue[t.log[i].key].last.Some? && t.log[i].at <= t.queue[t.log[i].key].last.value
    {
      if i < n {
        OldSentLatest(s, t.queue, sev, batch, repeats, i);
      } else {
        MarkedItem(s.queue, sev, batch, s.now, repeats, t.log[i].key);
        assert batch[i - n].key == t.log[i].key && InBatch(batch, t.log[i].key);
      }
    }
  }

  /** An earlier send of a stay that marking leaves queued is not after the new last-notified. */
  lemma OldSentLatest(s: State, queue: map<Key, Item>, sev: Severity, batch: seq<Notice>, repeats: bool, i: nat)
    requires LastIsLatest(s) && EpochsBounded(s) && batch != [] && i < |s.log|
    requires queue == MarkIn(s.queue, sev, batch, s.now, repeats) && IsCurrent(queue, s.log[i])
    ensures queue[s.log[i].key].last.Some? && s.log[i].at <= queue[s.log[i].key].last.value
  {
    MarkedItem(s.queue, sev, batch, s.now, repeats, s.log[i].key);
    assert IsCurrent(s.queue, s.log[i]);
  }

  lemma MarkDue(env: Env, s: State, sev: Severity, other: Severity)
    requires SpacingInv(env, s) && Enabled(s, Mark(sev))
    ensures StillDue(env, Do(env, s, Mark(sev)), other)
  {
    var t, batch := Do(env, s, Mark(sev)), FlushOf(s, sev).batch;
    assert StillDue(env, s, other);
    if other != sev {
      SameFlush(env, s, Mark(sev), other);
      forall k | Queued(t.queue, other, k) ensures Queued(s.queue, other, k) && t.queue[k].last == s.queue[k].last {
        MarkedItem(s.queue, sev, batch, s.now, env.repeat(sev) > 0, k);
      }
    }
  }

  lemma SpacingStep(env: Env, s: State, a: Label)
    requires SpacingInv(env, s) && Enabled(s, a)
    ensures SpacingInv(env, Do(env, s, a))
  {
    BatchInvStep(env, s, a);
    EpochsStep(env, s, a);
    if a.Mark? {
      assert StillDue(env, s, a.sev) && GoodFlush(env, a.sev, FlushOf(s, a.sev));
      MarkSpacing(env, s, a.sev, FlushOf(s, a.sev).batch);
      MarkLatest(s, Do(env, s, a), a.sev, FlushOf(s, a.sev).batch, env.repeat(a.sev) > 0);
    } else {
      LastStep(env, s, a);
    }
    forall sev ensures StillDue(env, Do(env, s, a), sev) {
      if a.Mark? { MarkDue(env, s, a.sev, sev); } else { DueStep(env, s, a, sev); }
    }
  }

  ghost function SpacingHolds(env: Env): State -> bool {
    (s: State) => SpacingInv(env, s)
  }

  lemma InitSpacing(env: Env, now: Time)
    ensures SpacingInv(env, InitState(now))
  {
  }

  lemma SpacingRun(env: Env, now: Time, states: seq<State>, n: nat)
    requires BatcherRun(env, states) && states[0] == InitState(now) && n < |states|
    ensures SpacingInv(env, states[n])
  {
    forall s, a, t | SpacingHolds(env)(s) && Any<Label>()(a) && Acts(env)(s, a, t) ensures SpacingHolds(env)(t) {
      SpacingStep(env, s, a);
    }
    InitSpacing(env, now);
    RunInduction(Acts(env), Any(), states, n, SpacingHolds(env));
  }

  // ----- the bound on repeated notifications

  /** An ONU queued in one severity before and after a step is in the same stay. */
  lemma LabelKeepsStay(env: Env, s: State, a: Label, sev: Severity, k: Key)
    requires Enabled(s, a) && Queued(s.queue, sev, k) && Queued(Do(env, s, a).queue, sev, k)
    ensures Do(env, s, a).queue[k].epoch == s.queue[k].epoch
  {
    if a.Mark? {
      MarkedItem(s.queue, a.sev, FlushOf(s, a.sev).batch, s.now, env.repeat(a.sev) > 0, k);
    }
  }

  /** A step appends to the log, and what it appends about a queued ONU belongs to its stay. */
  lemma StayStep(env: Env, states: seq<State>, n: nat, sev: Severity, k: Key)
    requires BatcherRun(env, states) && n + 1 < |states|
    requires Queued(states[n].queue, sev, k) && Queued(states[n + 1].queue, sev, k)
    ensures states[n + 1].queue[k].epoch == states[n].queue[k].epoch
    ensures |states[n].log| <= |states[n + 1].log| && states[n + 1].log[..|states[n].log|] == states[n].log
    ensures OneEpoch(states[n + 1].log, |states[n].log|, sev, k, states[n].queue[k].epoch)
  {
    var s, t := states[n], states[n + 1];
    var a := StepOfRun(env, states, n);
    LabelKeepsStay(env, s, a, sev, k);
    if a.Mark? {
      SentAll(s.queue, a.sev, FlushOf(s, a.sev).batch, s.now);
    }
  }

  /** The log entries about k in severity sev from position start on all have this epoch. */
  ghost predicate OneEpoch(log: seq<Sent>, start: nat, sev: Severity, k: Key, epoch: nat) {
    forall i :: start <= i < |log| && log[i].key == k && log[i].sev == sev ==> log[i].epoch == Some(epoch)
  }

  lemma {:induction false} StayLog(env: Env, states: seq<State>, sev: Severity, k: Key, from: nat, n: nat)
    requires BatcherRun(env, states) && from <= n < |states|
    requires forall m :: from <= m <= n ==> Queued(states[m].queue, sev, k)
    ensures Queued(states[n].queue, sev, k) && Queued(states[from].queue, sev, k)
    ensures states[n].queue[k].epoch == states[from].queue[k].epoch
    ensures |states[from].log| <= |states[n].log|
    ensures OneEpoch(states[n].log, |states[from].log|, sev, k, states[from].queue[k].epoch)
  {
    if n == from {
    } else {
      StayLog(env, states, sev, k, from, n - 1);
      StayStep(env, states, n - 1, sev, k);
      OneEpochLater(states[n - 1].log, states[n].log, |states[from].log|, sev, k, states[from].queue[k].epoch);
    }
  }

  lemma OneEpochLater(log: seq<Sent>, log': seq<Sent>, start: nat, sev: Severity, k: Key, epoch: nat)
    requires OneEpoch(log, start, sev, k, epoch) && OneEpoch(log', |log|, sev, k, epoch)
    requires |log| <= |log'| && log'[..|log|] == log
    ensures OneEpoch(log', start, sev, k, epoch)
  {
    assert forall i :: 0 <= i < |log| ==> log'[i] == log'[..|log|][i];
  }

  lemma SpacedRun(env: Env, now: Time, states: seq<State>)
    requires BatcherRun(env, states) && states[0] == InitState(now)
    ensures Spaced(env, states[|states| - 1].log)
  {
    SpacingRun(env, now, states, |states| - 1);
  }

  /** Over any run, while an ONU stays queued in one severity, any two notifications of it are at
      least the repeat interval apart; without a repeat interval there is at most one. */
  lemma RepeatsAreSpaced(env: Env, now: Time, states: seq<State>, sev: Severity, k: Key, from: nat, i: nat, j: nat)
    requires BatcherRun(env, states) && states[0] == InitState(now) && from < |states|
    requires forall m :: from <= m < |states| ==> Queued(states[m].queue, sev, k)
    requires |states[from].log| <= i < j < |states[|states| - 1].log|
    requires var log := states[|states| - 1].log;
      log[i].key == k && log[i].sev == sev && log[j].key == k && log[j].sev == sev
    ensures var log := states[|states| - 1].log;
      env.repeat(sev) > 0 && log[j].at - log[i].at >= env.repeat(sev)
  {
    StayLog(env, states, sev, k, from, |states| - 1);
    SpacedRun(env, now, states);
  }

  // ----- sends against Adds

  function SendsOf(sev: Severity, k: Key): Sent -> nat {
    (e: Sent) => if e.key == k && e.sev == sev then 1 else 0
  }

  function AddsOf(sev: Severity, k: Key): Added -> nat {
    (e: Added) => if e.key == k && e.sev == sev then 1 else 0
  }

  /** A flush of the severity has taken the ONU and not yet sent it. */
  predicate Pending(f: Flush, k: Key) {
    match f
    case Idle => false
    case Reading(_, copy, _, batch) => (copy.Some? && copy.value.key == k) || InBatch(batch, k)
    case Marking(batch) => InBatch(batch, k)
  }

  /** One send may still follow without another Add. */
  predicate OneLeft(s: State, sev: Severity, k: Key) {
    Queued(s.queue, sev, k) || Pending(FlushOf(s, sev), k)
  }

  ghost predicate SendsBounded(s: State, sev: Severity, k: Key) {
    Sum(s.log, SendsOf(sev, k)) + (if OneLeft(s, sev, k) then 1 else 0) <= Sum(s.adds, AddsOf(sev, k))
  }

  lemma {:induction false} SendsInBatch(queue: map<Key, Item>, sev: Severity, batch: seq<Notice>, now: Time,
                                        other: Severity, k: Key)
    requires DistinctKeys(batch)
    ensures Sum(SentNow(queue, sev, batch, now), SendsOf(other, k)) == if other == sev && InBatch(batch, k) then 1 else 0
  {
    if batch == [] {
    } else {
      var n := |batch| - 1;
      SendsInBatch(queue, sev, batch[..n], now, other, k);
      SumAppend(SentNow(queue, sev, batch[..n], now), SentOf(queue, sev, batch[n].key, now), SendsOf(other, k));
      LastOfBatch(batch, k);
    }
  }

  lemma LastOfBatch(batch: seq<Notice>, k: Key)
    requires batch != [] && DistinctKeys(batch)
    ensures InBatch(batch, k) <==> InBatch(batch[..|batch| - 1], k) || k == batch[|batch| - 1].key
    ensures !InBatch(batch[..|batch| - 1], batch[|batch| - 1].key)
  {
    var n := |batch| - 1;
    assert batch == batch[..n] + [batch[n]];
    InBatchAppend(batch[..n], batch[n], k);
  }

  lemma InBatchAppend(batch: seq<Notice>, n: Notice, k: Key)
    ensures InBatch(batch + [n], k) <==> k == n.key || InBatch(batch, k)
  {
    var all := batch + [n];
    assert all[|batch|] == n;
    if i :| 0 <= i < |batch| && batch[i].key == k {
      assert all[i].key == k;
    }
  }

  lemma SendsOfMark(env: Env, s: State, a: Label, sev: Severity, k: Key)
    requires BatchInv(env, s) && Enabled(s, a) && a.Mark? && env.repeat(sev) <= 0 && SendsBounded(s, sev, k)
    ensures SendsBounded(Do(env, s, a), sev, k)
  {
    var t, batch := Do(env, s, a), FlushOf(s, a.sev).batch;
    assert GoodFlush(env, a.sev, FlushOf(s, a.sev));
    SumConcat(s.log, SentNow(s.queue, a.sev, batch, s.now), SendsOf(sev, k));
    SendsInBatch(s.queue, a.sev, batch, s.now, sev, k);
    if Queued(t.queue, sev, k) {
      MarkedItem(s.queue, a.sev, batch, s.now, env.repeat(a.sev) > 0, k);
    }
    if a.sev != sev {
      SameFlush(env, s, a, sev);
    }
  }

  lemma PendingStep(env: Env, s: State, a: Label, sev: Severity, k: Key)
    requires Enabled(s, a) && !a.Mark? && Pending(FlushOf(Do(env, s, a), sev), k)
    ensures OneLeft(s, sev, k)
  {
    var f, g := FlushOf(s, sev), FlushOf(Do(env, s, a), sev);
    if a.Judge? && a.sev == sev {
      if |g.batch| > |f.batch| {
        InBatchAppend(f.batch, g.batch[|f.batch|], k);
        assert g.batch == f.batch + [g.batch[|f.batch|]];
      }
    } else if !((a.Begin? || a.Read? || a.Cleanup?) && a.sev == sev) {
      SameFlush(env, s, a, sev);
    }
  }

  lemma SendsStep(env: Env, s: State, a: Label, sev: Severity, k: Key)
    requires BatchInv(env, s) && Enabled(s, a) && env.repeat(sev) <= 0 && SendsBounded(s, sev, k)
    ensures SendsBounded(Do(env, s, a), sev, k)
  {
    var t := Do(env, s, a);
    if a.Mark? {
      SendsOfMark(env, s, a, sev, k);
    } else {
      if a.Add? {
        SumAppend(s.adds, t.adds[|s.adds|], AddsOf(sev, k));
      }
      if Pending(FlushOf(t, sev), k) {
        PendingStep(env, s, a, sev, k);
      }
    }
  }

  ghost function SendsHold(env: Env, sev: Severity, k: Key): State -> bool {
    (s: State) => BatchInv(env, s) && SendsBounded(s, sev, k)
  }

  lemma SendsRun(env: Env, now: Time, states: seq<State>, n: nat, sev: Severity, k: Key)
    requires BatcherRun(env, states) && states[0] == InitState(now) && n < |states| && env.repeat(sev) <= 0
    ensures SendsBounded(states[n], sev, k)
  {
    forall s, a, t | SendsHold(env, sev, k)(s) && Any<Label>()(a) && Acts(env)(s, a, t) ensures SendsHold(env, sev, k)(t) {
      BatchInvStep(env, s, a);
      SendsStep(env, s, a, sev, k);
    }
    InitBatchInv(env, now);
    RunInduction(Acts(env), Any(), states, n, SendsHold(env, sev, k));
  }

  /** Without a repeat interval, the sends of an ONU in a severity never outnumber the Adds to it. */
  lemma SendsNeverExceedAdds(env: Env, now: Time, states: seq<State>, sev: Severity, k: Key)
    requires BatcherRun(env, states) && states[0] == InitState(now) && env.repeat(sev) <= 0
    ensures var s := states[|states| - 1];
      Sum(s.log, SendsOf(sev, k)) <= Sum(s.adds, AddsOf(sev, k))
  {
    SendsRun(env, now, states, |states| - 1, sev, k);
  }
}

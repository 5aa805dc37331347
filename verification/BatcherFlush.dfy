/** One whole flush of a severity among everything else that runs: what it may interleave with, and
    that it sends exactly the ONUs that are due and confirmed. */
module BatcherFlush {
  import opened Text
  import opened TrapEvents
  import opened Runs
  import opened BatcherProtocol

  // ----- the flush's own labels and those of other threads

  predicate OfFlush(a: Label, sev: Severity) {
    (a.Begin? || a.Read? || a.Judge? || a.Cleanup? || a.Mark?) && a.sev == sev
  }

  /** Labels of every thread but the flush of sev. */
  ghost function NotOfFlush(sev: Severity): Label -> bool { (a: Label) => !OfFlush(a, sev) }

  /** The same, and that flush's reads and its judgements by the fetcher's answers. */
  ghost function Judging(sev: Severity, answers: Key -> Option<Detail>): Label -> bool {
    (a: Label) => OfFlush(a, sev) ==> a.Read? || (a.Judge? && a.answer == answers(a.key))
  }

  ghost function SameFlushAs(sev: Severity, f: Flush): State -> bool { (s: State) => FlushOf(s, sev) == f }

  lemma OthersStep(env: Env, s: State, a: Label, sev: Severity)
    requires Enabled(s, a) && !OfFlush(a, sev)
    ensures FlushOf(Do(env, s, a), sev) == FlushOf(s, sev)
  {
  }

  /** Other threads leave a flush where it stands. */
  lemma OthersKeepFlush(env: Env, s: State, t: State, sev: Severity)
    requires Reaches(Acts(env), NotOfFlush(sev), s, t)
    ensures FlushOf(t, sev) == FlushOf(s, sev)
  {
    var holds := SameFlushAs(sev, FlushOf(s, sev));
    forall u, a, v | holds(u) && NotOfFlush(sev)(a) && Acts(env)(u, a, v) ensures holds(v) {
      OthersStep(env, u, a, sev);
    }
    ReachesInduction(Acts(env), NotOfFlush(sev), s, t, holds);
  }

  // ----- a whole flush

  /** From s to t a whole flush: run is its reading phase, from the snapshot of the severity's keys to the
      state in which every one of them is read and judged; then what failed is dropped, and what is sent is
      marked. In between only other threads run. */
  ghost predicate Flushed(env: Env, s: State, run: seq<State>, t: State, sev: Severity, answers: Key -> Option<Detail>,
                          sent: seq<Notice>) {
    && Enabled(s, Begin(sev)) && IsRun(Acts(env), Judging(sev, answers), run) && run[0] == Do(env, s, Begin(sev))
    && Finished(env, run[|run| - 1], t, sev, sent)
  }

  ghost predicate Finished(env: Env, judged: State, t: State, sev: Severity, sent: seq<Notice>) {
    exists cleaned :: FinishedAt(env, judged, cleaned, t, sev, sent)
  }

  ghost predicate FinishedAt(env: Env, judged: State, cleaned: State, t: State, sev: Severity, sent: seq<Notice>) {
    && Enabled(judged, Cleanup(sev)) && FlushOf(judged, sev).batch == sent
    && Reaches(Acts(env), NotOfFlush(sev), Do(env, judged, Cleanup(sev)), cleaned)
    && (if sent == [] then t == cleaned else Enabled(cleaned, Mark(sev)) && t == Do(env, cleaned, Mark(sev)))
  }

  lemma FinishedHere(env: Env, judged: State, cleaned: State, t: State, sev: Severity, drop: set<Key>, sent: seq<Notice>)
    requires FlushOf(judged, sev) == Reading({}, None, drop, sent)
    requires Reaches(Acts(env), NotOfFlush(sev), Do(env, judged, Cleanup(sev)), cleaned)
    requires if sent == [] then t == cleaned
             else FlushOf(cleaned, sev) == Marking(sent) && t == Do(env, cleaned, Mark(sev))
    ensures Finished(env, judged, t, sev, sent)
  {
    assert FinishedAt(env, judged, cleaned, t, sev, sent);
  }

  /** A flush is part of a run. */
  lemma FlushedLeads(env: Env, s: State, run: seq<State>, t: State, sev: Severity, answers: Key -> Option<Detail>,
                     sent: seq<Notice>)
    requires Flushed(env, s, run, t, sev, answers, sent)
    ensures Reaches(Acts(env), Any(), s, t)
  {
    var begun, judged := Do(env, s, Begin(sev)), run[|run| - 1];
    var cleaned :| FinishedAt(env, judged, cleaned, t, sev, sent);
    var dropped := Do(env, judged, Cleanup(sev));
    assert Reaches(Acts(env), Judging(sev, answers), begun, judged);
    ReachesItself(Acts(env), Any(), s);
    ReachesNext(Acts(env), Any(), s, s, Begin(sev), begun);
    ReachesMore(Acts(env), Any(), Judging(sev, answers), s, begun, judged);
    ReachesNext(Acts(env), Any(), s, judged, Cleanup(sev), dropped);
    ReachesMore(Acts(env), Any(), NotOfFlush(sev), s, dropped, cleaned);
    if sent != [] {
      ReachesNext(Acts(env), Any(), s, cleaned, Mark(sev), t);
    }
  }

  // ----- what a flush decides about one ONU

  /** The fetcher found the ONU, and what it says is an alert of the flushed severity. */
  ghost predicate Confirms(env: Env, sev: Severity, answer: Option<Detail>) {
    && answer.Some? && answer.value.id != 0
    && if sev == Medium then env.lib.rxLevel(answer.value.rxPower) in {TooHigh, TooLow}
       else
         var t := ResolveEventType(env.lib, answer.value.status, answer.value.offlineReason);
         t != Online && EventSeverity(t) == sev
  }

  /** The time has come: never notified, or at least a repeat interval ago when there is one. */
  ghost predicate TimeHasCome(env: Env, sev: Severity, last: Option<Time>, now: Time) {
    last == None || (0 < env.repeat(sev) && last.value + env.repeat(sev) <= now)
  }

  /** What is sent for an event: itself without a fetcher; with one, the same ONU with the answer's status,
      type and readings, and its name and description where it has them. */
  ghost predicate SentFor(env: Env, sev: Severity, e: Event, answer: Option<Detail>, sent: Event) {
    if !env.hasFetcher then sent == e
    else
      && answer.Some?
      && var d := answer.value;
      && SameOnu(sent, e) && sent.onuType == e.onuType
      && sent.status == d.status && sent.rxPower == d.rxPower && sent.serialNumber == d.serialNumber
      && sent.lastOffline == d.lastOffline && sent.lastOnline == d.lastOnline
      && sent.name == (if d.name == "" then e.name else d.name)
      && sent.description == (if d.description == "" then e.description else d.description)
      && sent.eventType ==
         if sev != Medium then ResolveEventType(env.lib, d.status, d.offlineReason)
         else if env.lib.rxLevel(d.rxPower) == TooHigh then HighRxPower else LowRxPower
  }

  ghost predicate IsSent(env: Env, sev: Severity, c: Copy, answer: Option<Detail>, before: seq<Notice>, after: seq<Notice>) {
    && |after| == |before| + 1 && after[..|before|] == before
    && after[|before|].key == c.key && SentFor(env, sev, c.event, answer, after[|before|].event)
  }

  /** Judging a copied entry: it joins the batch exactly when its time has come and, with a fetcher, the answer
      confirms it; it is dropped exactly when its time has come and the answer does not; else nothing happens. */
  lemma JudgeDecides(env: Env, s: State, sev: Severity, answer: Option<Detail>)
    requires FlushOf(s, sev).Reading? && FlushOf(s, sev).copy.Some?
    ensures var f := FlushOf(s, sev);
      var c := f.copy.value;
      var g := FlushOf(Do(env, s, Judge(sev, c.key, answer)), sev);
      && g.Reading? && g.copy == None && g.todo == f.todo
      && (if !TimeHasCome(env, sev, c.last, s.now) then g.batch == f.batch && g.drop == f.drop
          else if env.hasFetcher && !Confirms(env, sev, answer) then g.batch == f.batch && g.drop == f.drop + {c.key}
          else IsSent(env, sev, c, answer, f.batch, g.batch) && g.drop == f.drop)
  {
    if env.hasFetcher {
      ReverifyConfirms(env, sev, FlushOf(s, sev).copy.value.event, answer);
    }
  }

  lemma ReverifyConfirms(env: Env, sev: Severity, e: Event, answer: Option<Detail>)
    requires env.hasFetcher
    ensures Reverify(env.lib, sev, e, answer).Some? <==> Confirms(env, sev, answer)
    ensures Confirms(env, sev, answer) ==> SentFor(env, sev, e, answer, Reverify(env.lib, sev, e, answer).value)
  {
    if answer.Some? {
      ResolvedIsAlertOrOnline(env.lib, answer.value.status, answer.value.offlineReason);
    }
  }

  /** What the flush has decided about an ONU, given its queued event, when it was last notified, the time it
      was judged and the fetcher's answer. */
  ghost predicate DecidedAs(env: Env, sev: Severity, k: Key, e: Event, last: Option<Time>, now: Time,
                            answer: Option<Detail>, f: Flush)
    requires f.Reading?
  {
    var due := TimeHasCome(env, sev, last, now);
    && (InBatch(f.batch, k) <==> due && (env.hasFetcher ==> Confirms(env, sev, answer)))
    && (k in f.drop <==> due && env.hasFetcher && !Confirms(env, sev, answer))
    && forall i :: 0 <= i < |f.batch| && f.batch[i].key == k ==> SentFor(env, sev, e, answer, f.batch[i].event)
  }

  /** How far the flush got with an ONU of its snapshot: read and judged are positions in the run. */
  datatype Stage = Unread | Copied(read: nat) | Gone(read: nat) | Decided(read: nat, judged: nat)

  ghost predicate Untouched(f: Flush, k: Key)
    requires f.Reading?
  {
    !InBatch(f.batch, k) && k !in f.drop
  }

  ghost predicate NotCopied(f: Flush, k: Key)
    requires f.Reading?
  {
    f.copy.Some? ==> f.copy.value.key != k
  }

  ghost predicate AtStage(env: Env, run: seq<State>, n: nat, sev: Severity, answers: Key -> Option<Detail>, k: Key,
                          stage: Stage)
    requires n < |run|
  {
    var f := FlushOf(run[n], sev);
    && f.Reading?
    && match stage
       case Unread => k in f.todo && NotCopied(f, k) && Untouched(f, k)
       case Copied(i) =>
         && i <= n && Queued(run[i].queue, sev, k) && k !in f.todo && Untouched(f, k)
         && f.copy == Some(Copy(k, run[i].queue[k].event, run[i].queue[k].last))
       case Gone(i) => i <= n && !Queued(run[i].queue, sev, k) && k !in f.todo && NotCopied(f, k) && Untouched(f, k)
       case Decided(i, j) =>
         && i <= j <= n && Queued(run[i].queue, sev, k) && k !in f.todo && NotCopied(f, k)
         && DecidedAs(env, sev, k, run[i].queue[k].event, run[i].queue[k].last, run[j].now, answers(k), f)
  }

  lemma ReadStage(env: Env, run: seq<State>, n: nat, sev: Severity, answers: Key -> Option<Detail>, k: Key, stage: Stage,
                  key: Key) returns (next: Stage)
    requires n + 1 < |run| && AtStage(env, run, n, sev, answers, k, stage)
    requires Enabled(run[n], Read(sev, key)) && run[n + 1] == Do(env, run[n], Read(sev, key))
    ensures AtStage(env, run, n + 1, sev, answers, k, next)
  {
    next := if key != k then stage else if Queued(run[n].queue, sev, k) then Copied(n) else Gone(n);
  }

  /** One more ONU in the batch, or none, and what is known about another one stays. */
  lemma OtherDecided(env: Env, sev: Severity, k: Key, e: Event, last: Option<Time>, now: Time, answer: Option<Detail>,
                     f: Flush, g: Flush)
    requires f.Reading? && g.Reading? && DecidedAs(env, sev, k, e, last, now, answer, f)
    requires k in g.drop <==> k in f.drop
    requires g.batch == f.batch
      || (|g.batch| == |f.batch| + 1 && g.batch[..|f.batch|] == f.batch && g.batch[|f.batch|].key != k)
    ensures DecidedAs(env, sev, k, e, last, now, answer, g)
  {
    InBatchGrows(f.batch, g.batch, k);
    forall i | 0 <= i < |g.batch| && g.batch[i].key == k ensures SentFor(env, sev, e, answer, g.batch[i].event) {
      assert i < |f.batch| && f.batch[i] == g.batch[..|f.batch|][i];
    }
  }

  lemma InBatchGrows(batch: seq<Notice>, more: seq<Notice>, k: Key)
    requires |batch| <= |more| <= |batch| + 1 && more[..|batch|] == batch
    ensures InBatch(more, k) <==> InBatch(batch, k) || (|more| > |batch| && more[|batch|].key == k)
  {
    if i :| 0 <= i < |more| && more[i].key == k {
      if i < |batch| {
        assert batch[i] == more[i];
      }
    }
    if i :| 0 <= i < |batch| && batch[i].key == k {
      assert more[i] == batch[i];
    }
  }

  /** Judging the ONU itself. */
  lemma OwnDecided(env: Env, s: State, sev: Severity, answer: Option<Detail>)
    requires FlushOf(s, sev).Reading? && FlushOf(s, sev).copy.Some?
    requires Untouched(FlushOf(s, sev), FlushOf(s, sev).copy.value.key)
    ensures var c := FlushOf(s, sev).copy.value;
      var g := FlushOf(Do(env, s, Judge(sev, c.key, answer)), sev);
      g.Reading? && DecidedAs(env, sev, c.key, c.event, c.last, s.now, answer, g)
  {
    var f := FlushOf(s, sev);
    var c := f.copy.value;
    var g := FlushOf(Do(env, s, Judge(sev, c.key, answer)), sev);
    JudgeDecides(env, s, sev, answer);
    InBatchGrows(f.batch, g.batch, c.key);
    assert forall i :: 0 <= i < |f.batch| ==> f.batch[i].key != c.key;
    assert forall i :: 0 <= i < |f.batch| ==> g.batch[i] == g.batch[..|f.batch|][i];
  }

  lemma JudgeStage(env: Env, run: seq<State>, n: nat, sev: Severity, answers: Key -> Option<Detail>, k: Key, stage: Stage,
                   key: Key) returns (next: Stage)
    requires n + 1 < |run| && AtStage(env, run, n, sev, answers, k, stage)
    requires var a := Judge(sev, key, answers(key)); Enabled(run[n], a) && run[n + 1] == Do(env, run[n], a)
    ensures AtStage(env, run, n + 1, sev, answers, k, next)
  {
    var f, g := FlushOf(run[n], sev), FlushOf(run[n + 1], sev);
    JudgeDecides(env, run[n], sev, answers(key));
    if key == k {
      OwnDecided(env, run[n], sev, answers(key));
      next := Decided(stage.read, n);
    } else {
      next := stage;
      InBatchGrows(f.batch, g.batch, k);
      if stage.Decided? {
        OtherDecided(env, sev, k, run[stage.read].queue[k].event, run[stage.read].queue[k].last, run[stage.judged].now,
                     answers(k), f, g);
      }
    }
  }

  lemma NextStage(env: Env, run: seq<State>, n: nat, sev: Severity, answers: Key -> Option<Detail>, k: Key, stage: Stage)
    returns (next: Stage)
    requires IsRun(Acts(env), Judging(sev, answers), run) && n + 1 < |run|
    requires AtStage(env, run, n, sev, answers, k, stage)
    ensures AtStage(env, run, n + 1, sev, answers, k, next)
  {
    assert StepAt(Acts(env), Judging(sev, answers), run, n);
    var a :| Judging(sev, answers)(a) && Acts(env)(run[n], a, run[n + 1]);
    if !OfFlush(a, sev) {
      OthersStep(env, run[n], a, sev);
      next := stage;
    } else if a.Read? {
      next := ReadStage(env, run, n, sev, answers, k, stage, a.key);
    } else {
      next := JudgeStage(env, run, n, sev, answers, k, stage, a.key);
    }
  }

  lemma {:induction false} StageAt(env: Env, run: seq<State>, n: nat, sev: Severity, answers: Key -> Option<Detail>, k: Key)
    returns (stage: Stage)
    requires IsRun(Acts(env), Judging(sev, answers), run) && n < |run|
    requires AtStage(env, run, 0, sev, answers, k, Unread)
    ensures AtStage(env, run, n, sev, answers, k, stage)
  {
    if n == 0 {
      stage := Unread;
    } else {
      stage := StageAt(env, run, n - 1, sev, answers, k);
      stage := NextStage(env, run, n - 1, sev, answers, k, stage);
    }
  }

  // ----- the whole flush is complete

  /** Every ONU queued when the flush begins is read once. If it is still queued then, it is judged later by that entry,
      the time and the fetcher's answer, and sent or dropped accordingly; if not, it is neither. */
  lemma FlushDecides(env: Env, s: State, run: seq<State>, t: State, sev: Severity, answers: Key -> Option<Detail>,
                     sent: seq<Notice>, k: Key) returns (read: nat, judged: nat)
    requires Flushed(env, s, run, t, sev, answers, sent) && k in s.queue && s.queue[k].sev == sev
    ensures read <= judged < |run| && FlushOf(run[|run| - 1], sev).Reading? && FlushOf(run[|run| - 1], sev).batch == sent
    ensures if Queued(run[read].queue, sev, k) then
              DecidedAs(env, sev, k, run[read].queue[k].event, run[read].queue[k].last, run[judged].now, answers(k),
                        FlushOf(run[|run| - 1], sev))
            else Untouched(FlushOf(run[|run| - 1], sev), k)
  {
    BeginSnapshots(env, s, sev, k);
    assert AtStage(env, run, 0, sev, answers, k, Unread);
    var stage := StageAt(env, run, |run| - 1, sev, answers, k);
    var cleaned :| FinishedAt(env, run[|run| - 1], cleaned, t, sev, sent);
    match stage
    case Gone(i) => read, judged := i, i;
    case Decided(i, j) => read, judged := i, j;
  }

  /** The ONU stays queued as it was while the flush reads. */
  ghost predicate LeftAlone(run: seq<State>, k: Key, x: Item) {
    forall i :: 0 <= i < |run| ==> k in run[i].queue && run[i].queue[k] == x
  }

  /** An ONU that is left alone, and whose time has come before the flush began, is sent exactly when there is no
      fetcher or the fetcher's answer confirms it; one whose time has not come by the end is not. */
  lemma DueIsSent(env: Env, s: State, run: seq<State>, t: State, sev: Severity, answers: Key -> Option<Detail>,
                  sent: seq<Notice>, k: Key)
    requires Flushed(env, s, run, t, sev, answers, sent) && k in s.queue && s.queue[k].sev == sev
    requires LeftAlone(run, k, s.queue[k])
    ensures TimeHasCome(env, sev, s.queue[k].last, s.now) ==>
      (InBatch(sent, k) <==> (env.hasFetcher ==> Confirms(env, sev, answers(k))))
    ensures !TimeHasCome(env, sev, s.queue[k].last, run[|run| - 1].now) ==> !InBatch(sent, k)
    ensures forall i :: 0 <= i < |sent| && sent[i].key == k ==> SentFor(env, sev, s.queue[k].event, answers(k), sent[i].event)
  {
    var read, judged := FlushDecides(env, s, run, t, sev, answers, sent, k);
    assert k in run[read].queue && run[read].queue[k] == s.queue[k];
    JudgedInTime(env, s, run, sev, answers, judged);
  }

  lemma JudgedInTime(env: Env, s: State, run: seq<State>, sev: Severity, answers: Key -> Option<Detail>, judged: nat)
    requires Enabled(s, Begin(sev)) && IsRun(Acts(env), Judging(sev, answers), run) && run[0] == Do(env, s, Begin(sev))
    requires judged < |run|
    ensures s.now <= run[judged].now <= run[|run| - 1].now
  {
    TimeAdvances(env, run, Judging(sev, answers), 0, judged);
    TimeAdvances(env, run, Judging(sev, answers), judged, |run| - 1);
  }

  lemma {:induction false} TimeAdvances(env: Env, run: seq<State>, may: Label -> bool, from: nat, n: nat)
    requires IsRun(Acts(env), may, run) && from <= n < |run|
    ensures run[from].now <= run[n].now
  {
    if from == n {
    } else {
      TimeAdvances(env, run, may, from, n - 1);
      assert StepAt(Acts(env), may, run, n - 1);
      var a :| may(a) && Acts(env)(run[n - 1], a, run[n]);
      StepTime(env, run[n - 1], a);
    }
  }

  lemma StepTime(env: Env, s: State, a: Label)
    requires Enabled(s, a)
    ensures s.now <= Do(env, s, a).now
  {
  }
}

/** Readiness checks over cached dependency probes. Each dependency has its own lock, so checks
    interleave between dependencies; the call's time is read once, before any lock. */
module Health {
  import opened Text

  /** Time and durations in nanoseconds. */
  type Time = int

  const FAILURE_TTL: Time := 5_000_000_000

  /** One run of a probe; err is None when the dependency is reachable. */
  datatype ProbeRun = ProbeRun(start: Time, end: Time, err: Option<string>)

  datatype Status = Status(name: string, err: Option<string>)

  /** How long a result is served: a failure for at most five seconds. */
  function ResultTtl(ttl: Time, err: Option<string>): Time {
    if err.Some? && FAILURE_TTL < ttl then FAILURE_TTL else ttl
  }

  function Min(a: Time, b: Time): Time {
    if a < b then a else b
  }

  /** Every probe starts at least as long after the previous one ended as that one's result is served. */
  predicate Spaced(ttl: Time, log: seq<ProbeRun>) {
    && (forall i :: 0 <= i < |log| ==> log[i].start <= log[i].end)
    && forall i :: 0 < i < |log| ==> log[i].start >= log[i - 1].end + ResultTtl(ttl, log[i - 1].err)
  }

  /** The result may still be served to a call made at this time. */
  predicate Fresh(ttl: Time, run: ProbeRun, at: Time) {
    at - run.end < ResultTtl(ttl, run.err)
  }

  /** A success is served for less than ttl after it was found, a failure for less than ttl and five seconds. */
  lemma ServedBriefly(ttl: Time, run: ProbeRun, at: Time)
    ensures Fresh(ttl, run, at) <==> at < run.end + ttl && (run.err.Some? ==> at < run.end + 5_000_000_000)
  {
  }

  /** A probe starts at least the time to live after any earlier success and at least
      min(ttl, 5 s) after any earlier failure. */
  lemma {:induction false} ProbesApart(ttl: Time, log: seq<ProbeRun>, i: nat, j: nat)
    requires Spaced(ttl, log) && ttl >= 0 && i < j < |log|
    ensures log[j].start >= log[i].end + (if log[i].err.None? then ttl else Min(ttl, FAILURE_TTL))
  {
    if i == j - 1 {
    } else {
      ProbesApart(ttl, log, i, j - 1);
      assert log[j].start >= log[j - 1].end;
    }
  }

  /** A dependency that is down is not probed more often than every min(ttl, 5 s), however often it is asked for. */
  lemma {:induction false} ProbeRate(ttl: Time, log: seq<ProbeRun>, i: nat, j: nat)
    requires Spaced(ttl, log) && ttl >= 0 && i <= j < |log|
    ensures log[j].start - log[i].start >= (j - i) * Min(ttl, FAILURE_TTL)
  {
    if i == j {
    } else {
      ProbeRate(ttl, log, i, j - 1);
      assert log[j].start - log[j - 1].start >= Min(ttl, FAILURE_TTL);
    }
  }

  class Clock {
    var now: Time
  }

  class Dependency {
    const name: string
    const ttl: Time
    const critical: bool
    // What a probe started at a time finds, and how long it takes.
    const probe: Time -> Option<string>
    const takes: Time -> nat

    var lastAt: Option<Time>
    var lastErr: Option<string>
    ghost var log: seq<ProbeRun>

    ghost predicate Valid()
      reads this
    {
      && Spaced(ttl, log)
      && lastAt == (if log == [] then None else Some(log[|log| - 1].end))
      && lastErr == if log == [] then None else log[|log| - 1].err
    }

    constructor (name: string, ttl: Time, critical: bool, probe: Time -> Option<string>, takes: Time -> nat)
      ensures Valid() && log == []
      ensures this.name == name && this.ttl == ttl && this.critical == critical
    {
      this.name, this.ttl, this.critical, this.probe, this.takes := name, ttl, critical, probe, takes;
      lastAt, lastErr, log := None, None, [];
    }

    /** The latest result may still be served. */
    ghost predicate Cached(at: Time)
      reads this
    {
      log != [] && Fresh(ttl, log[|log| - 1], at)
    }

    /** One critical section, for a call made at the given time: probes unless the latest result may
        still be served, and returns the then latest result. */
    method Lookup(at: Time, clock: Clock) returns (err: Option<string>)
      requires Valid() && at <= clock.now
      modifies this, clock
      ensures Valid() && clock.now >= old(clock.now)
      ensures if |old(log)| > 0 && at < old(log[|log| - 1].end) + ttl
                 && (old(log[|log| - 1].err).Some? ==> at < old(log[|log| - 1].end) + 5_000_000_000)
              then log == old(log) && clock.now == old(clock.now)
              else log == old(log) + [ProbeRun(old(clock.now), clock.now, probe(old(clock.now)))]
      ensures err == log[|log| - 1].err
    {
      var resultTtl := ttl;
      if lastErr.Some? && FAILURE_TTL < resultTtl {
        resultTtl := FAILURE_TTL;
      }
      var cached := lastAt.Some? && at - lastAt.value < resultTtl;
      if !cached {
        var start := clock.now;
        lastErr := probe(start);
        clock.now := start + takes(start);
        lastAt := Some(clock.now);
        log := log + [ProbeRun(start, clock.now, lastErr)];
      }
      err := lastErr;
    }
  }

  /** The status reports one result of the dependency: one still fresh when the call was made, or
      one of a probe started since. */
  ghost predicate Reports(d: Dependency, s: Status, at: Time)
    reads d
  {
    s.name == d.name && exists k :: ReportsRun(d, s, at, k)
  }

  ghost predicate ReportsRun(d: Dependency, s: Status, at: Time, k: int)
    reads d
  {
    0 <= k < |d.log| && s.err == d.log[k].err && (Fresh(d.ttl, d.log[k], at) || d.log[k].start >= at)
  }

  class Checker {
    const clock: Clock
    var deps: seq<Dependency>

    ghost predicate Valid()
      reads this, deps
    {
      && (forall i :: 0 <= i < |deps| ==> deps[i].Valid())
      && forall i, j :: 0 <= i < j < |deps| ==> deps[i] != deps[j]
    }

    constructor (clock: Clock)
      ensures Valid() && this.clock == clock && deps == []
    {
      this.clock := clock;
      deps := [];
    }

    method Register(name: string, ttl: Time, critical: bool, probe: Time -> Option<string>, takes: Time -> nat)
      requires Valid()
      modifies this
      ensures Valid() && |deps| == |old(deps)| + 1 && deps[..|old(deps)|] == old(deps)
      ensures var d := deps[|old(deps)|];
        fresh(d) && d.log == [] && d.name == name && d.ttl == ttl && d.critical == critical
    {
      var d := new Dependency(name, ttl, critical, probe, takes);
      deps := deps + [d];
    }

    /** Other checks probe any of the dependencies, and time passes. */
    method Yield()
      requires Valid()
      modifies deps, clock
      ensures Valid() && clock.now >= old(clock.now)
      ensures forall i :: 0 <= i < |deps| ==> old(deps[i].log) <= deps[i].log
    {
    }

    /** The statuses so far each report a result that was fresh at the time or is newer. */
    ghost predicate Reported(statuses: seq<Status>, at: Time)
      reads this, deps
    {
      |statuses| <= |deps| && forall i :: 0 <= i < |statuses| ==> Reports(deps[i], statuses[i], at)
    }

    /** No critical dependency is reported down. */
    ghost predicate AllUp(statuses: seq<Status>)
      reads this
    {
      forall i :: 0 <= i < |statuses| && i < |deps| && deps[i].critical ==> statuses[i].err.None?
    }

    /** One status per dependency, each reporting a result that was fresh when the call was made or
        is newer; healthy exactly when every critical dependency is reported up. */
    method Check() returns (statuses: seq<Status>, healthy: bool)
      requires Valid()
      modifies deps, clock
      ensures Valid() && |statuses| == |deps| && Reported(statuses, old(clock.now))
      ensures healthy <==> forall i :: 0 <= i < |deps| && deps[i].critical ==> statuses[i].err == None
      ensures forall i :: 0 <= i < |deps| ==> old(deps[i].log) <= deps[i].log
    {
      healthy := true;
      var at := clock.now;
      statuses := [];
      for n := 0 to |deps|
        invariant Valid() && |statuses| == n && at <= clock.now && Reported(statuses, at)
        invariant healthy <==> AllUp(statuses)
        invariant forall i :: 0 <= i < |deps| ==> old(deps[i].log) <= deps[i].log
      {
        var status := CheckNext(statuses, at);
        AllUpNext(statuses, status);
        if status.err.Some? && deps[n].critical {
          healthy := false;
        }
        statuses := statuses + [status];
      }
    }

    lemma AllUpNext(statuses: seq<Status>, status: Status)
      requires |statuses| < |deps|
      ensures AllUp(statuses + [status])
        <==> AllUp(statuses) && (deps[|statuses|].critical ==> status.err.None?)
    {
      var all := statuses + [status];
      assert all[|statuses|] == status && forall i :: 0 <= i < |statuses| ==> all[i] == statuses[i];
    }

    /** Lets others run, then looks the next dependency up. */
    method CheckNext(statuses: seq<Status>, at: Time) returns (status: Status)
      requires Valid() && |statuses| < |deps| && at <= clock.now && Reported(statuses, at)
      modifies deps, clock
      ensures Valid() && clock.now >= old(clock.now) && Reported(statuses + [status], at)
      ensures forall i :: 0 <= i < |deps| ==> old(deps[i].log) <= deps[i].log
    {
      StillReported(statuses, at);
      status := LookupNext(statuses, at);
    }

    method LookupNext(statuses: seq<Status>, at: Time) returns (status: Status)
      requires Valid() && |statuses| < |deps| && at <= clock.now && Reported(statuses, at)
      modifies deps[|statuses|], clock
      ensures Valid() && clock.now >= old(clock.now) && Reported(statuses + [status], at)
      ensures old(deps[|statuses|].log) <= deps[|statuses|].log
    {
      var d := deps[|statuses|];
      var err := d.Lookup(at, clock);
      status := Status(d.name, err);
      assert ReportsRun(d, status, at, |d.log| - 1);
    }

    /** Yields; what was reported stays a report, since logs only grow. */
    method StillReported(ghost statuses: seq<Status>, at: Time)
      requires Valid() && Reported(statuses, at)
      modifies deps, clock
      ensures Valid() && clock.now >= old(clock.now) && Reported(statuses, at)
      ensures forall i :: 0 <= i < |deps| ==> old(deps[i].log) <= deps[i].log
    {
      label before:
      Yield();
      forall i | 0 <= i < |statuses| ensures Reports(deps[i], statuses[i], at) {
        var k :| old@before(ReportsRun(deps[i], statuses[i], at, k));
        assert ReportsRun(deps[i], statuses[i], at, k);
      }
    }
  }
}

/** Waiting for the device registry at startup: retries with doubling backoff inside a window,
    against a clock that fetches and sleeps advance. */
module RegistryRetry {
  import opened Text

  /** Time and durations in nanoseconds. */
  type Time = int

  const SECOND: Time := 1_000_000_000
  const INITIAL_BACKOFF: Time := SECOND
  const MAX_BACKOFF: Time := 8 * SECOND
  const DEFAULT_STARTUP_TIMEOUT: Time := 60 * SECOND

  type Positive = n: int | n >= 1 witness 1

  /** What the n-th fetch returns, how long it takes, and how long the n-th sleep really takes. */
  datatype World = World(fetch: nat -> Option<string>, fetchTakes: nat -> nat, sleepTakes: nat -> Positive)

  /** The window: the default when REGISTRY_STARTUP_TIMEOUT is not set or is no duration. */
  function StartupTimeout(setting: string, parseDuration: string -> Option<Time>): Time {
    if setting == "" then DEFAULT_STARTUP_TIMEOUT
    else
      match parseDuration(setting)
      case None => DEFAULT_STARTUP_TIMEOUT
      case Some(d) => d
  }

  /** Without a setting, or with one that is no duration, the window is a minute; any duration is honoured,
      also zero and negative ones. */
  lemma WindowOf(setting: string, parseDuration: string -> Option<Time>)
    ensures setting == "" ==> StartupTimeout(setting, parseDuration) == 60_000_000_000
    ensures setting != "" && parseDuration(setting) == None ==> StartupTimeout(setting, parseDuration) == 60_000_000_000
    ensures forall d :: setting != "" && parseDuration(setting) == Some(d) ==> StartupTimeout(setting, parseDuration) == d
  {
  }

  // ----- what a run of the loop is

  function Pow2(n: nat): (p: int)
    ensures p >= 1
  {
    if n == 0 then 1 else 2 * Pow2(n - 1)
  }

  /** The sleep after the n-th attempt: min(2^n, 8) seconds. */
  function Backoff(n: nat): Time {
    if Pow2(n) <= 8 then Pow2(n) * SECOND else MAX_BACKOFF
  }

  /** The clock when the n-th attempt has returned. */
  function ClockAt(w: World, start: Time, n: nat): Time {
    if n == 0 then start + w.fetchTakes(0)
    else ClockAt(w, start, n - 1) + w.sleepTakes(n - 1) + w.fetchTakes(n)
  }

  /** The sleep after the n-th attempt would end before the deadline. */
  predicate SleepFits(w: World, start: Time, window: Time, n: nat) {
    ClockAt(w, start, n) + Backoff(n) < start + window
  }

  ghost predicate GoesOn(w: World, start: Time, window: Time, n: nat) {
    w.fetch(n).None? && SleepFits(w, start, window, n)
  }

  /** The n-th attempt is the last one: every earlier one failed and left room for its sleep. */
  ghost predicate EndsAt(w: World, start: Time, window: Time, n: nat) {
    !GoesOn(w, start, window, n) && forall i: nat :: i < n ==> GoesOn(w, start, window, i)
  }

  /** Returns the answer of the last attempt: the first success, or the failure after which no
      sleep fits the window any more. Terminates whatever fails, since every sleep advances the clock. */
  method FetchWithRetry(w: World, start: Time, setting: string, parseDuration: string -> Option<Time>)
    returns (r: Option<string>)
    ensures exists n :: EndsAt(w, start, StartupTimeout(setting, parseDuration), n) && r == w.fetch(n)
  {
    var now := start;
    var window := StartupTimeout(setting, parseDuration);
    var deadline := now + window;
    var backoff := INITIAL_BACKOFF;
    var n: nat := 0;
    while true
      invariant forall i: nat :: i < n ==> GoesOn(w, start, window, i)
      invariant now + w.fetchTakes(n) == ClockAt(w, start, n)
      invariant backoff == Backoff(n) && (backoff < MAX_BACKOFF ==> backoff == Pow2(n) * SECOND)
      decreases deadline - now
    {
      r := w.fetch(n);
      now := now + w.fetchTakes(n);
      if r.Some? {
        assert EndsAt(w, start, window, n);
        return;
      }
      if now + backoff >= deadline {
        assert EndsAt(w, start, window, n);
        return;
      }
      assert GoesOn(w, start, window, n);
      now := now + w.sleepTakes(n);
      NextBackoff(n);
      if backoff < MAX_BACKOFF {
        backoff := backoff * 2;
        if backoff > MAX_BACKOFF {
          backoff := MAX_BACKOFF;
        }
      }
      n := n + 1;
    }
  }

  lemma NextBackoff(n: nat)
    ensures Pow2(n + 1) == 2 * Pow2(n) && Backoff(n + 1) == if Backoff(n) < MAX_BACKOFF then 2 * Backoff(n) else MAX_BACKOFF
  {
    PowersJump(n);
  }

  /** No power of two lies strictly between 4 and 8. */
  lemma PowersJump(n: nat)
    ensures Pow2(n) <= 4 || Pow2(n) >= 8
  {
    if n == 0 {
    } else {
      PowersJump(n - 1);
    }
  }

  // ----- properties of every run

  /** There is one last attempt, so the outcome is determined by the world alone. */
  lemma LastAttemptUnique(w: World, start: Time, window: Time, n: nat, m: nat)
    requires EndsAt(w, start, window, n) && EndsAt(w, start, window, m)
    ensures n == m
  {
  }

  lemma {:induction false} ClockAdvances(w: World, start: Time, n: nat)
    ensures ClockAt(w, start, n) >= start + n
  {
    if n == 0 {
    } else {
      ClockAdvances(w, start, n - 1);
    }
  }

  /** A window of at most a second, and so "0", means a single attempt. */
  lemma ShortWindowTriesOnce(w: World, start: Time, window: Time, n: nat)
    requires window <= SECOND && EndsAt(w, start, window, n)
    ensures n == 0
  {
    assert !GoesOn(w, start, window, 0);
  }

  /** A registry that answers within some window gives the same answer within any longer one. */
  lemma LongerWindowKeepsSuccess(w: World, start: Time, window: Time, longer: Time, n: nat)
    requires EndsAt(w, start, window, n) && w.fetch(n).Some? && window <= longer
    ensures EndsAt(w, start, longer, n)
  {
    forall i: nat | i < n ensures GoesOn(w, start, longer, i) {
      assert GoesOn(w, start, window, i);
    }
  }

  /** Sleeps take at least as long as asked for. */
  ghost predicate SleepsFully(w: World) {
    forall n: nat :: w.sleepTakes(n) >= Backoff(n)
  }

  /** The sum of the first n backoffs. */
  function TotalBackoff(n: nat): Time {
    if n == 0 then 0 else TotalBackoff(n - 1) + Backoff(n - 1)
  }

  lemma {:induction false} SleepsAddUp(w: World, start: Time, n: nat)
    requires SleepsFully(w)
    ensures ClockAt(w, start, n) >= start + TotalBackoff(n)
  {
    if n == 0 {
    } else {
      SleepsAddUp(w, start, n - 1);
      assert w.sleepTakes(n - 1) >= Backoff(n - 1);
    }
  }

  /** All sleeps of a run together stay inside the window. */
  lemma SleepsWithinWindow(w: World, start: Time, window: Time, n: nat)
    requires SleepsFully(w) && EndsAt(w, start, window, n) && n > 0
    ensures TotalBackoff(n) < window
  {
    assert GoesOn(w, start, window, n - 1);
    SleepsAddUp(w, start, n - 1);
  }

  /** The first three backoffs are 1, 2 and 4 seconds, every later one is 8. */
  lemma {:induction false} TotalBackoffIs(n: nat)
    ensures TotalBackoff(n) == if n < 3 then (Pow2(n) - 1) * SECOND else (8 * n - 17) * SECOND
    ensures n >= 3 ==> Backoff(n) == MAX_BACKOFF
  {
    if n == 0 {
    } else {
      TotalBackoffIs(n - 1);
      NextBackoff(n - 1);
      if n <= 3 {
        SmallPowers();
      }
    }
  }

  lemma SmallPowers()
    ensures Pow2(0) == 1 && Pow2(1) == 2 && Pow2(2) == 4 && Pow2(3) == 8
  {
    assert Pow2(3) == 2 * Pow2(2);
  }

  /** The default window allows at most ten attempts. */
  lemma DefaultWindowAttempts(w: World, start: Time, n: nat)
    requires SleepsFully(w) && EndsAt(w, start, DEFAULT_STARTUP_TIMEOUT, n)
    ensures n + 1 <= 10
  {
    if n > 0 {
      SleepsWithinWindow(w, start, DEFAULT_STARTUP_TIMEOUT, n);
      TotalBackoffIs(n);
    }
  }

  /** The bound is met: a registry that fails at once, slept for exactly, is tried ten times. */
  lemma TenAttemptsHappen(w: World, start: Time)
    requires forall n: nat :: w.fetch(n) == None && w.fetchTakes(n) == 0 && w.sleepTakes(n) == Backoff(n)
    ensures EndsAt(w, start, DEFAULT_STARTUP_TIMEOUT, 9)
  {
    forall i: nat | i <= 9
      ensures GoesOn(w, start, DEFAULT_STARTUP_TIMEOUT, i) <==> i < 9
    {
      ExactClock(w, start, i);
      TotalBackoffIs(i);
      TotalBackoffIs(i + 1);
    }
  }

  lemma {:induction false} ExactClock(w: World, start: Time, n: nat)
    requires forall n: nat :: w.fetchTakes(n) == 0 && w.sleepTakes(n) == Backoff(n)
    ensures ClockAt(w, start, n) == start + TotalBackoff(n)
  {
    if n == 0 {
    } else {
      ExactClock(w, start, n - 1);
    }
  }
}

/** Runs of a step system, as the lists of their states. act relates a state, a label and the state
    the label leads to; may says which labels a run takes. */
module Runs {

  function Any<L>(): L -> bool { (a: L) => true }

  ghost predicate Step<S(!new), L(!new)>(act: (S, L, S) -> bool, may: L -> bool, s: S, t: S) {
    exists a :: may(a) && act(s, a, t)
  }

  ghost predicate StepAt<S(!new), L(!new)>(act: (S, L, S) -> bool, may: L -> bool, states: seq<S>, i: int) {
    0 <= i < |states| - 1 && Step(act, may, states[i], states[i + 1])
  }

  ghost predicate IsRun<S(!new), L(!new)>(act: (S, L, S) -> bool, may: L -> bool, states: seq<S>) {
    states != [] && forall i :: 0 <= i < |states| - 1 ==> StepAt(act, may, states, i)
  }

  /** Some run leads from s to t. */
  ghost predicate Reaches<S(!new), L(!new)>(act: (S, L, S) -> bool, may: L -> bool, s: S, t: S) {
    exists states :: IsRun(act, may, states) && states[0] == s && states[|states| - 1] == t
  }

  /** What holds at the start and survives every step holds in every state of every run. */
  lemma {:induction false} RunInduction<S(!new), L(!new)>(act: (S, L, S) -> bool, may: L -> bool, states: seq<S>, n: nat,
                                                          holds: S -> bool)
    requires IsRun(act, may, states) && n < |states| && holds(states[0])
    requires forall s, a, t :: holds(s) && may(a) && act(s, a, t) ==> holds(t)
    ensures holds(states[n])
  {
    if n == 0 {
    } else {
      RunInduction(act, may, states, n - 1, holds);
      assert StepAt(act, may, states, n - 1);
    }
  }

  lemma ReachesInduction<S(!new), L(!new)>(act: (S, L, S) -> bool, may: L -> bool, s: S, t: S, holds: S -> bool)
    requires Reaches(act, may, s, t) && holds(s)
    requires forall s, a, t :: holds(s) && may(a) && act(s, a, t) ==> holds(t)
    ensures holds(t)
  {
    var states: seq<S> :| IsRun(act, may, states) && states[0] == s && states[|states| - 1] == t;
    RunInduction(act, may, states, |states| - 1, holds);
  }

  lemma ReachesItself<S(!new), L(!new)>(act: (S, L, S) -> bool, may: L -> bool, s: S)
    ensures Reaches(act, may, s, s)
  {
    assert IsRun(act, may, [s]) && [s][0] == s && [s][|[s]| - 1] == s;
  }

  lemma ReachesNext<S(!new), L(!new)>(act: (S, L, S) -> bool, may: L -> bool, s: S, mid: S, a: L, t: S)
    requires Reaches(act, may, s, mid) && may(a) && act(mid, a, t)
    ensures Reaches(act, may, s, t)
  {
    var states: seq<S> :| IsRun(act, may, states) && states[0] == s && states[|states| - 1] == mid;
    var longer := states + [t];
    forall i | 0 <= i < |longer| - 1 ensures StepAt(act, may, longer, i) {
      if i < |states| - 1 {
        assert StepAt(act, may, states, i);
      } else {
        assert Step(act, may, mid, t);
      }
    }
    assert IsRun(act, may, longer) && longer[0] == s && longer[|longer| - 1] == t;
  }

  /** One more step in front of a run. */
  lemma RunFrom<S(!new), L(!new)>(act: (S, L, S) -> bool, may: L -> bool, s: S, a: L, states: seq<S>)
    requires IsRun(act, may, states) && may(a) && act(s, a, states[0])
    ensures IsRun(act, may, [s] + states)
  {
    var longer := [s] + states;
    forall i | 0 <= i < |longer| - 1 ensures StepAt(act, may, longer, i) {
      if i > 0 {
        assert StepAt(act, may, states, i - 1);
      } else {
        assert Step(act, may, s, states[0]);
      }
    }
  }

  lemma ReachesThrough<S(!new), L(!new)>(act: (S, L, S) -> bool, may: L -> bool, s: S, mid: S, t: S)
    requires Reaches(act, may, s, mid) && Reaches(act, may, mid, t)
    ensures Reaches(act, may, s, t)
  {
    ReachesMore(act, may, may, s, mid, t);
  }

  /** A run can be prolonged by one that takes fewer labels. */
  lemma ReachesMore<S(!new), L(!new)>(act: (S, L, S) -> bool, may: L -> bool, fewer: L -> bool, s: S, mid: S, t: S)
    requires Reaches(act, may, s, mid) && Reaches(act, fewer, mid, t)
    requires forall a :: fewer(a) ==> may(a)
    ensures Reaches(act, may, s, t)
  {
    var states: seq<S> :| IsRun(act, fewer, states) && states[0] == mid && states[|states| - 1] == t;
    RunReaches(act, may, fewer, s, states, |states| - 1);
  }

  lemma {:induction false} RunReaches<S(!new), L(!new)>(act: (S, L, S) -> bool, may: L -> bool, fewer: L -> bool, s: S,
                                                        states: seq<S>, n: nat)
    requires IsRun(act, fewer, states) && n < |states| && Reaches(act, may, s, states[0])
    requires forall a :: fewer(a) ==> may(a)
    ensures Reaches(act, may, s, states[n])
  {
    if n == 0 {
    } else {
      RunReaches(act, may, fewer, s, states, n - 1);
      assert StepAt(act, fewer, states, n - 1);
      var a: L :| fewer(a) && act(states[n - 1], a, states[n]);
      ReachesNext(act, may, s, states[n - 1], a, states[n]);
    }
  }
}

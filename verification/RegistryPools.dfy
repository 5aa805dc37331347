/** The registry together with the pools of its stacks: closing a stack starts Close on its pool,
    and in between every pool runs on its own. A tracked worker never sees "SNMP pool closed". */
module RegistryPools {
  import R = RegistryProtocol
  import P = SnmpPool
  import opened Runs

  /** pools[k] is the pool of stack k. */
  datatype System = System(registry: R.State, pools: seq<P.State>)

  /** pool is what opening a stack creates; any other registry label ignores it. */
  datatype Label = OfRegistry(a: R.Label, pool: P.State) | OfPool(k: nat, p: P.Label)

  predicate ClosesStack(a: R.Label) {
    a.CloseNow? || a.CloseLate?
  }

  function ClosedStack(s: R.State, a: R.Label): nat
    requires R.Enabled(s, a) && ClosesStack(a)
  {
    if a.CloseNow? then s.entries[s.writer.id].stack else s.closers[a.closer].stack
  }

  /** A call of Close gets past sync.Once only when it is the first one. */
  function StartClose(p: P.State): P.State {
    if p.closer.NotCalled? then P.Do(p, P.SetFlag) else p
  }

  ghost predicate Enabled(s: System, l: Label) {
    match l
    case OfRegistry(a, pool) =>
      && R.Enabled(s.registry, a) && (a.Open? ==> P.Init(pool))
      && (ClosesStack(a) ==> ClosedStack(s.registry, a) < |s.pools|)
    case OfPool(k, p) => k < |s.pools| && !p.SetFlag? && P.Enabled(s.pools[k], p)
  }

  function Do(s: System, l: Label): System
    requires Enabled(s, l)
  {
    match l
    case OfRegistry(a, pool) =>
      System(R.Do(s.registry, a),
             if a.Open? then s.pools + [pool]
             else if ClosesStack(a) then
               var k := ClosedStack(s.registry, a); s.pools[k := StartClose(s.pools[k])]
             else s.pools)
    case OfPool(k, p) => s.(pools := s.pools[k := P.Do(s.pools[k], p)])
  }

  ghost function Acts(): (System, Label, System) -> bool {
    (s: System, l: Label, t: System) => Enabled(s, l) && t == Do(s, l)
  }

  /** A state the registry and its pools can be in. */
  ghost predicate Reachable(t: System) {
    Reaches(Acts(), Any(), System(R.INIT, []), t)
  }

  /** Every pool keeps its own invariant, and its flag is set only once its stack was closed. */
  ghost predicate PoolLinked(s: System, k: nat)
    requires k < |s.pools| && k < |s.registry.stacks|
  {
    P.Inv(s.pools[k]) && (s.pools[k].flag ==> s.registry.stacks[k].closes > 0)
  }

  ghost predicate Linked(s: System) {
    && |s.pools| == |s.registry.stacks|
    && forall k :: 0 <= k < |s.pools| ==> PoolLinked(s, k)
  }

  ghost predicate Inv(s: System) {
    R.Inv(s.registry) && Linked(s)
  }

  /** A registry step opens a stack, counts one more close of a stack, or leaves the stacks alone. */
  lemma StacksOfStep(s: R.State, a: R.Label)
    requires R.Enabled(s, a)
    ensures var t := R.Do(s, a);
      && |t.stacks| == |s.stacks| + (if a.Open? then 1 else 0)
      && (forall k :: 0 <= k < |s.stacks| ==> t.stacks[k].closes >= s.stacks[k].closes)
      && (ClosesStack(a) && ClosedStack(s, a) < |s.stacks| ==> t.stacks[ClosedStack(s, a)].closes > 0)
  {
  }

  lemma StartCloseInv(p: P.State)
    requires P.Inv(p)
    ensures P.Inv(StartClose(p))
  {
    if p.closer.NotCalled? {
      P.StepInv(p, P.SetFlag);
    }
  }

  lemma RegistryStepLinked(s: System, l: Label)
    requires Linked(s) && Enabled(s, l) && l.OfRegistry?
    ensures Linked(Do(s, l))
  {
    var t := Do(s, l);
    StacksOfStep(s.registry, l.a);
    if l.a.Open? {
      P.InitInv(l.pool);
    } else if ClosesStack(l.a) {
      assert PoolLinked(s, ClosedStack(s.registry, l.a));
      StartCloseInv(s.pools[ClosedStack(s.registry, l.a)]);
    }
    forall k | 0 <= k < |t.pools| ensures PoolLinked(t, k) {
      if k < |s.pools| {
        assert PoolLinked(s, k);
      }
    }
  }

  lemma PoolStepLinked(s: System, l: Label)
    requires Linked(s) && Enabled(s, l) && l.OfPool?
    ensures Linked(Do(s, l))
  {
    var t := Do(s, l);
    assert PoolLinked(s, l.k);
    P.StepInv(s.pools[l.k], l.p);
    FlagOnlyByClose(s.pools[l.k], l.p);
    forall k | 0 <= k < |t.pools| ensures PoolLinked(t, k) {
      assert PoolLinked(s, k);
    }
  }

  lemma FlagOnlyByClose(p: P.State, a: P.Label)
    requires P.Enabled(p, a) && !a.SetFlag?
    ensures P.Do(p, a).flag == p.flag
  {
  }

  lemma StepInv(s: System, l: Label)
    requires Inv(s) && Enabled(s, l)
    ensures Inv(Do(s, l))
  {
    if l.OfRegistry? {
      R.StepInv(s.registry, l.a);
      RegistryStepLinked(s, l);
    } else {
      PoolStepLinked(s, l);
    }
  }

  ghost function InvHolds(): System -> bool { (s: System) => Inv(s) }

  lemma ReachableInv(t: System)
    requires Reachable(t)
    ensures Inv(t)
  {
    forall s, l, t | InvHolds()(s) && Any<Label>()(l) && Acts()(s, l, t) ensures InvHolds()(t) {
      StepInv(s, l);
    }
    R.InitInv();
    ReachesInduction(Acts(), Any(), System(R.INIT, []), t, InvHolds());
  }

  /** While a tracked worker's fn runs, no operation on its OLT's pool has been refused because the
      pool is closed, and every connection in use there is open. */
  lemma JobNeverSeesPoolClosed(t: System, w: nat)
    requires Reachable(t) && w < |t.registry.workers| && t.registry.workers[w].phase.Running?
    ensures t.registry.workers[w].stack < |t.pools|
    ensures var pool := t.pools[t.registry.workers[w].stack];
      && !pool.flag
      && (forall i :: 0 <= i < |pool.ops| ==> !P.Refused(pool.ops[i]))
      && (forall c :: 0 <= c < |pool.closes| ==> pool.closes[c] == 0)
  {
    ReachableInv(t);
    R.GuardedIsOpen(t.registry, w);
    var k := t.registry.workers[w].stack;
    assert PoolLinked(t, k);
  }
}

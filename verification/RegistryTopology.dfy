/** In every state the registry can be in, an entry's validator topology, the OID map its
    usecase was built with and its current config describe the same ports. */
module RegistryTopology {
  import opened Text
  import opened Olts
  import opened Boards
  import opened ChangeKeys
  import opened RegistryProtocol
  import opened Runs

  ghost predicate SameTopology(s: State, id: string)
    requires id in s.entries
  {
    var e := s.entries[id];
    && e.stack < |s.stacks|
    && s.stacks[e.stack].config.id == id
    && e.boardPons == s.stacks[e.stack].config.boardPons == e.olt.boardPons
    && e.userId == e.olt.userId
  }

  ghost predicate TopologyInv(s: State) {
    && (forall id :: id in s.entries ==> SameTopology(s, id))
    && (forall k :: 0 <= k < |s.stacks| ==> WellFormed(s.stacks[k].config))
  }

  lemma TopologyReplace(s: State, a: Label)
    requires TopologyInv(s) && EntriesLinked(s) && Enabled(s, a) && a.Replace?
    ensures forall id :: id in Do(s, a).entries ==> SameTopology(Do(s, a), id)
  {
    EqualKeysSameBoards(s.entries[a.olt.id].olt, a.olt);
    forall id | id in Do(s, a).entries ensures SameTopology(Do(s, a), id) {
      assert SameTopology(s, id) && EntryLinked(s, id);
    }
  }

  lemma TopologyStep(s: State, a: Label)
    requires TopologyInv(s) && EntriesLinked(s) && Enabled(s, a) && (a.Open? ==> WellFormed(a.olt))
    ensures TopologyInv(Do(s, a))
  {
    StacksStep(s, a);
    if a.Replace? {
      TopologyReplace(s, a);
    } else {
      forall id | id in Do(s, a).entries ensures SameTopology(Do(s, a), id) {
        if id in s.entries {
          assert SameTopology(s, id) && EntryLinked(s, id);
        }
      }
    }
  }

  lemma StacksStep(s: State, a: Label)
    requires (forall k :: 0 <= k < |s.stacks| ==> WellFormed(s.stacks[k].config))
    requires Enabled(s, a) && (a.Open? ==> WellFormed(a.olt))
    ensures forall k :: 0 <= k < |Do(s, a).stacks| ==> WellFormed(Do(s, a).stacks[k].config)
    ensures |s.stacks| <= |Do(s, a).stacks|
    ensures forall k :: 0 <= k < |s.stacks| ==> Do(s, a).stacks[k].config == s.stacks[k].config
  {
    var t := Do(s, a);
    forall k | 0 <= k < |s.stacks| ensures t.stacks[k].config == s.stacks[k].config {
    }
    forall k | 0 <= k < |t.stacks| ensures WellFormed(t.stacks[k].config) {
      if k == |s.stacks| {
        assert t.stacks[k].config == a.olt;
      }
    }
  }

  /** Labels of a registry that is only given configs whose topology is well formed. */
  ghost function WellFormedOpens(): Label -> bool {
    (a: Label) => a.Open? ==> WellFormed(a.olt)
  }

  ghost function TopologyHolds(): State -> bool {
    (s: State) => TopologyInv(s) && Inv(s)
  }

  lemma TopologyRun(s: State, t: State)
    requires TopologyInv(s) && Inv(s) && Reaches(Acts(), WellFormedOpens(), s, t)
    ensures TopologyInv(t)
  {
    forall s, a, t | TopologyHolds()(s) && WellFormedOpens()(a) && Acts()(s, a, t) ensures TopologyHolds()(t) {
      TopologyStep(s, a);
      StepInv(s, a);
    }
    ReachesInduction(Acts(), WellFormedOpens(), s, t, TopologyHolds());
  }

  /** A state a registry that is only given well-formed configs can be in. */
  ghost predicate Sound(t: State) {
    Reaches(Acts(), WellFormedOpens(), INIT, t)
  }

  lemma SoundIsReachable(t: State)
    requires Sound(t)
    ensures Reachable(t)
  {
    ReachesItself(Acts(), Any(), INIT);
    ReachesMore(Acts(), Any(), WellFormedOpens(), INIT, INIT, t);
  }

  lemma SoundTopology(t: State)
    requires Sound(t)
    ensures TopologyInv(t)
  {
    InitInv();
    TopologyRun(INIT, t);
  }

  /** The request validator of an entry accepts a request exactly when the usecase of the same
      entry finds the OIDs of that port. */
  ghost predicate ValidatorAgrees(t: State, id: string, boardText: string, ponText: string)
    requires id in t.entries
  {
    && t.entries[id].stack < |t.stacks|
    && (ValidateParams(t.entries[id].boardPons, boardText, ponText).Some? <==>
          && Atoi(boardText).Some? && Atoi(ponText).Some?
          && GetBoardPonConfig(t.stacks[t.entries[id].stack].config.boardPonMap,
                               Atoi(boardText).value, Atoi(ponText).value).Some?)
    && t.entries[id].boardPons == t.entries[id].olt.boardPons
  }

  lemma ValidatorAgreesInEveryState(t: State, id: string, boardText: string, ponText: string)
    requires Sound(t) && id in t.entries
    ensures ValidatorAgrees(t, id, boardText, ponText)
  {
    SoundTopology(t);
    assert SameTopology(t, id);
    var config := t.stacks[t.entries[id].stack].config;
    assert WellFormed(config);
    ParsedTopologyAgrees(config.boardPons, config.boardPonMap, boardText, ponText);
  }
}

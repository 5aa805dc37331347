/** The slot and PON topology of an OLT: the OLT_BOARDS text, the OID map built from it,
    and the request validator, which must all describe the same ports. */
module Boards {
  import opened Text
  import opened Oids
  import opened Sorting

  datatype BoardPonKey = BoardPonKey(boardId: int, ponId: int)

  type OidMap = map<BoardPonKey, BoardPonConfig>

  /** Every slot and PON count is one a chassis can have. */
  predicate InRange(boardPons: map<int, int>) {
    forall s :: s in boardPons ==> ValidSlot(s) && ValidPon(boardPons[s])
  }

  const C320_DEFAULT: map<int, int> := map[1 := MAX_PON_ID, 2 := MAX_PON_ID]

  function OrDefault(boardPons: map<int, int>): map<int, int> {
    if boardPons == map[] then C320_DEFAULT else boardPons
  }

  function ClampPons(pons: int): int {
    if ValidPon(pons) then pons else MAX_PON_ID
  }

  // ----- the board specification text

  /** What one comma-separated part says: a slot and, when it is usable, a PON count. */
  datatype Spec = Spec(slot: int, pons: Option<int>)

  function ParseSpec(part: string): Option<Spec> {
    ParseTrimmed(TrimSpace(part))
  }

  function ParseTrimmed(part: string): Option<Spec> {
    if part == "" then None
    else
      var i := IndexFrom(part, ':', 0);
      match Atoi(TrimSpace(part[..i]))
      case None => None
      case Some(slot) =>
        if !ValidSlot(slot) then None
        else if i == |part| then Some(Spec(slot, None))
        else
          match Atoi(TrimSpace(part[i + 1..]))
          case None => Some(Spec(slot, None))
          case Some(p) => Some(Spec(slot, if ValidPon(p) then Some(p) else None))
  }

  /** What every part of the text says, in order. */
  function ParseParts(parts: seq<string>): (specs: seq<Option<Spec>>)
    ensures |specs| == |parts|
    ensures forall i :: 0 <= i < |parts| ==> specs[i] == ParseSpec(parts[i])
  {
    if parts == [] then [] else ParseParts(parts[..|parts| - 1]) + [ParseSpec(parts[|parts| - 1])]
  }

  predicate Names(said: Option<Spec>, slot: int) {
    said.Some? && said.value.slot == slot
  }

  function PonsOf(spec: Spec, default: int): int {
    match spec.pons
    case Some(p) => p
    case None => default
  }

  /** Part i is the last one to name its slot. */
  ghost predicate LastNamed(said: seq<Option<Spec>>, i: int) {
    && 0 <= i < |said| && said[i].Some?
    && forall j :: i < j < |said| ==> !Names(said[j], said[i].value.slot)
  }

  /** specs says, for each slot that some part names, what the last such part says; no other slot. */
  ghost predicate LastWins(said: seq<Option<Spec>>, default: int, specs: map<int, int>) {
    && (forall s :: s in specs ==> exists i :: 0 <= i < |said| && Names(said[i], s))
    && (forall i :: 0 <= i < |said| && said[i].Some? ==> said[i].value.slot in specs)
    && (forall i :: LastNamed(said, i) ==> specs[said[i].value.slot] == PonsOf(said[i].value, default))
  }

  /** boards is the ascending list of the keys of specs. */
  ghost predicate SlotList(boards: seq<int>, specs: map<int, int>) {
    && (forall i, j :: 0 <= i < j < |boards| ==> boards[i] < boards[j])
    && (forall s :: s in boards <==> s in specs)
  }

  method ParseBoardSpecs(raw: string, defaultPons: int) returns (boards: seq<int>, specs: map<int, int>)
    ensures specs != map[] && InRange(specs) && SlotList(boards, specs)
    ensures SpecsOf(ParseParts(Split(raw, ',')), ClampPons(defaultPons), specs)
  {
    var default := ClampPons(defaultPons);
    specs := CollectSpecs(Split(raw, ','), default);
    SaidSomething(ParseParts(Split(raw, ',')), default, specs);
    if specs == map[] {
      specs := map[1 := default, 2 := default];
      assert 1 in specs;
    }
    boards := SortedKeys(specs);
  }

  method CollectSpecs(parts: seq<string>, default: int) returns (specs: map<int, int>)
    requires ValidPon(default)
    ensures InRange(specs) && LastWins(ParseParts(parts), default, specs)
  {
    ghost var said := ParseParts(parts);
    specs := map[];
    for n := 0 to |parts|
      invariant InRange(specs)
      invariant LastWins(said[..n], default, specs)
    {
      ghost var before := specs;
      var spec := ParseSpec(parts[n]);
      if spec.Some? {
        SpecInRange(parts[n]);
        specs := specs[spec.value.slot := PonsOf(spec.value, default)];
      }
      LastWinsNext(said, n, default, before, specs);
    }
    assert said[..|said|] == said;
  }

  lemma LastWinsNext(said: seq<Option<Spec>>, n: nat, default: int, before: map<int, int>, specs: map<int, int>)
    requires n < |said| && LastWins(said[..n], default, before)
    requires specs == if said[n].None? then before
                      else before[said[n].value.slot := PonsOf(said[n].value, default)]
    ensures LastWins(said[..n + 1], default, specs)
  {
    assert said[..n + 1] == said[..n] + [said[n]];
    if said[n].None? {
      LastWinsSkip(said[..n], default, before);
    } else {
      LastWinsAppend(said[..n], default, before, said[n].value);
    }
  }

  /** What the whole text means: the last-wins map, or slots 1 and 2 when no part is usable. */
  ghost predicate SpecsOf(said: seq<Option<Spec>>, default: int, specs: map<int, int>) {
    if exists i :: 0 <= i < |said| && said[i].Some? then LastWins(said, default, specs)
    else specs == map[1 := default, 2 := default]
  }

  lemma SaidSomething(said: seq<Option<Spec>>, default: int, specs: map<int, int>)
    requires LastWins(said, default, specs)
    ensures specs != map[] <==> exists i :: 0 <= i < |said| && said[i].Some?
  {
    if i :| 0 <= i < |said| && said[i].Some? {
      assert said[i].value.slot in specs;
    }
    SomeMember(specs.Keys);
    if s :| s in specs {
      var i :| 0 <= i < |said| && Names(said[i], s);
    }
  }

  lemma SpecInRange(part: string)
    requires ParseSpec(part).Some?
    ensures ValidSlot(ParseSpec(part).value.slot)
    ensures ParseSpec(part).value.pons.Some? ==> ValidPon(ParseSpec(part).value.pons.value)
  {
  }

  lemma LastWinsSkip(said: seq<Option<Spec>>, default: int, specs: map<int, int>)
    requires LastWins(said, default, specs)
    ensures LastWins(said + [None], default, specs)
  {
    var all := said + [None];
    forall s | s in specs ensures exists i :: 0 <= i < |all| && Names(all[i], s) {
      var i :| 0 <= i < |said| && Names(said[i], s);
      assert Names(all[i], s);
    }
    forall i | LastNamed(all, i) ensures LastNamed(said, i) {
      forall j | i < j < |said| ensures !Names(said[j], said[i].value.slot) {
        assert all[j] == said[j];
      }
    }
  }

  lemma LastWinsAppend(said: seq<Option<Spec>>, default: int, specs: map<int, int>, spec: Spec)
    requires LastWins(said, default, specs)
    ensures LastWins(said + [Some(spec)], default, specs[spec.slot := PonsOf(spec, default)])
  {
    var all := said + [Some(spec)];
    var specs' := specs[spec.slot := PonsOf(spec, default)];
    assert Names(all[|said|], spec.slot);
    forall s | s in specs' ensures exists i :: 0 <= i < |all| && Names(all[i], s) {
      if s != spec.slot {
        var i :| 0 <= i < |said| && Names(said[i], s);
        assert Names(all[i], s);
      }
    }
    forall i | LastNamed(all, i) && i < |said|
      ensures LastNamed(said, i) && said[i].value.slot != spec.slot
    {
      assert !Names(all[|said|], all[i].value.slot);
      forall j | i < j < |said| ensures !Names(said[j], said[i].value.slot) {
        assert all[j] == said[j];
      }
    }
  }

  /** The keys of a map in ascending order, whatever order they are visited in. */
  method SortedKeys(m: map<int, int>) returns (keys: seq<int>)
    ensures SlotList(keys, m)
  {
    var list: seq<int> := [];
    var rest := m.Keys;
    while rest != {}
      invariant rest <= m.Keys
      invariant forall k :: k in list <==> k in m.Keys - rest
      invariant forall i, j :: 0 <= i < j < |list| ==> list[i] != list[j]
      decreases |rest|
    {
      SomeMember(rest);
      var k :| k in rest;
      list := list + [k];
      rest := rest - {k};
    }
    keys := Sort(IntLeq(), list);
    SortedDistinct(list, keys);
  }

  lemma SortedDistinct(list: seq<int>, keys: seq<int>)
    requires Sorted(IntLeq(), keys) && multiset(keys) == multiset(list)
    requires forall i, j :: 0 <= i < j < |list| ==> list[i] != list[j]
    ensures forall i, j :: 0 <= i < j < |keys| ==> keys[i] < keys[j]
    ensures forall k :: k in keys <==> k in list
  {
    forall k ensures k in keys <==> k in list {
      assert k in multiset(keys) <==> k in multiset(list);
    }
    forall i, j | 0 <= i < j < |keys| ensures keys[i] < keys[j] {
      assert IntLeq()(keys[i], keys[j]);
      if keys[i] == keys[j] {
        CountedTwice(keys, i, j);
        CountedOnce(list, keys[i]);
      }
    }
  }

  lemma CountedTwice(s: seq<int>, i: nat, j: nat)
    requires i < j < |s| && s[i] == s[j]
    ensures multiset(s)[s[i]] >= 2
  {
    assert s == s[..j] + s[j..];
    assert s[..j][i] in multiset(s[..j]) && s[j..][0] in multiset(s[j..]);
  }

  lemma {:induction false} CountedOnce(s: seq<int>, x: int)
    requires forall i, j :: 0 <= i < j < |s| ==> s[i] != s[j]
    ensures multiset(s)[x] <= 1
  {
    if s == [] {
    } else {
      CountedOnce(s[1..], x);
      assert s == [s[0]] + s[1..];
      if s[0] == x {
        assert x !in s[1..];
      }
    }
  }

  // ----- the OID map

  /** The ports a topology has, with the PON counts clamped as the map builder clamps them. */
  ghost predicate PortOf(boardPons: map<int, int>, key: BoardPonKey) {
    key.boardId in boardPons && 1 <= key.ponId <= ClampPons(boardPons[key.boardId])
  }

  /** m has exactly the ports of boardPons, each with its generated OIDs. */
  ghost predicate IsOidMap(boardPons: map<int, int>, m: OidMap) {
    && (forall k :: k in m <==> PortOf(boardPons, k))
    && Generated(m, OidGenerator())
  }

  type Generator = (int, int) -> Option<BoardPonConfig>

  function OidGenerator(): Generator {
    (slot: int, pon: int) => GenerateBoardPonOID(slot, pon)
  }

  ghost predicate Generated(m: OidMap, generate: Generator) {
    forall k :: k in m ==> generate(k.boardId, k.ponId) == Some(m[k])
  }

  /** Adds the ports 1..pons of one slot. None is the error of a slot outside the chassis. */
  method AddSlot(m: OidMap, slot: int, pons: int, generate: Generator) returns (r: Option<OidMap>)
    requires Generated(m, generate) && ValidPon(pons)
    requires forall s, p :: generate(s, p).Some? <==> ValidSlot(s) && ValidPon(p)
    ensures r.Some? <==> ValidSlot(slot)
    ensures r.Some? ==> Generated(r.value, generate)
    ensures r.Some? ==> forall k :: k in r.value <==> k in m || (k.boardId == slot && 1 <= k.ponId <= pons)
  {
    var out := m;
    var pon := 1;
    while pon <= pons
      invariant 1 <= pon <= pons + 1
      invariant forall k :: k in out <==> k in m || (k.boardId == slot && 1 <= k.ponId < pon)
      invariant Generated(out, generate)
      invariant pon > 1 ==> ValidSlot(slot)
    {
      var cfg := generate(slot, pon);
      if cfg.None? {
        return None;
      }
      out := out[BoardPonKey(slot, pon) := cfg.value];
      pon := pon + 1;
    }
    r := Some(out);
  }

  lemma GeneratorDomain()
    ensures forall s, p :: OidGenerator()(s, p).Some? <==> ValidSlot(s) && ValidPon(p)
  {
  }

  /** Builds the OID map slot by slot, in whatever order the map of slots is visited. */
  method InitializeBoardPonMapFromSpecs(specs: map<int, int>) returns (r: Option<OidMap>)
    ensures r.Some? <==> forall s :: s in OrDefault(specs) ==> ValidSlot(s)
    ensures r.Some? ==> IsOidMap(OrDefault(specs), r.value)
  {
    GeneratorDomain();
    var boardPons := OrDefault(specs);
    var m: OidMap := map[];
    var rest := boardPons.Keys;
    while rest != {}
      invariant rest <= boardPons.Keys
      invariant forall k :: k in m <==> PortOf(boardPons, k) && k.boardId !in rest
      invariant Generated(m, OidGenerator())
      invariant forall s :: s in boardPons && s !in rest ==> ValidSlot(s)
      decreases |rest|
    {
      SomeMember(rest);
      var slot :| slot in rest;
      var added := AddSlot(m, slot, ClampPons(boardPons[slot]), OidGenerator());
      if added.None? {
        return None;
      }
      m := added.value;
      rest := rest - {slot};
    }
    r := Some(m);
  }

  function GetBoardPonConfig(m: OidMap, board: int, pon: int): Option<BoardPonConfig> {
    if BoardPonKey(board, pon) in m then Some(m[BoardPonKey(board, pon)]) else None
  }

  // ----- the request validator

  /** The board and PON a request is accepted with, or None for a 400 answer. */
  function ValidateParams(specs: map<int, int>, boardText: string, ponText: string): Option<(int, int)> {
    var boardPons := OrDefault(specs);
    match Atoi(boardText)
    case None => None
    case Some(b) =>
      if b !in boardPons then None
      else
        match Atoi(ponText)
        case None => None
        case Some(p) => if p < 1 || p > boardPons[b] then None else Some((b, p))
  }

  /** Some request for this port is accepted. */
  ghost predicate Accepts(specs: map<int, int>, board: int, pon: int) {
    exists bt, pt :: ValidateParams(specs, bt, pt) == Some((board, pon))
  }

  /** Validator and OID map agree about a port. */
  ghost predicate AgreeOn(specs: map<int, int>, m: OidMap, board: int, pon: int) {
    GetBoardPonConfig(m, board, pon).Some? <==> Accepts(specs, board, pon)
  }

  lemma AcceptedPorts(specs: map<int, int>, board: int, pon: int)
    ensures Accepts(specs, board, pon)
      <==> IsInt64(board) && IsInt64(pon) && board in OrDefault(specs) && 1 <= pon <= OrDefault(specs)[board]
  {
    ParseOfItoa(board);
    ParseOfItoa(pon);
    if IsInt64(board) && IsInt64(pon) && board in OrDefault(specs) && 1 <= pon <= OrDefault(specs)[board] {
      assert ValidateParams(specs, Itoa(board), Itoa(pon)) == Some((board, pon));
    }
  }

  /** Agreement about one port, in terms of its slot's PON count. */
  lemma AgreePort(specs: map<int, int>, m: OidMap, b: int, p: int)
    requires (forall s :: s in specs ==> ValidSlot(s) && IsInt64(specs[s])) && IsOidMap(OrDefault(specs), m)
    ensures AgreeOn(specs, m, b, p)
      <==> (b in OrDefault(specs) ==> (1 <= p <= ClampPons(OrDefault(specs)[b]) <==> 1 <= p <= OrDefault(specs)[b]))
  {
    AcceptedPorts(specs, b, p);
    assert BoardPonKey(b, p) in m <==> PortOf(OrDefault(specs), BoardPonKey(b, p));
  }

  /** For topologies whose slots the map builder accepts, the validator accepts a port exactly
      when the OID map has it, if and only if every PON count is in range. */
  lemma AgreementExact(specs: map<int, int>, m: OidMap)
    requires (forall s :: s in specs ==> ValidSlot(s) && IsInt64(specs[s])) && IsOidMap(OrDefault(specs), m)
    ensures (forall b, p :: AgreeOn(specs, m, b, p)) <==> InRange(specs)
  {
    forall b, p | InRange(specs) ensures AgreeOn(specs, m, b, p) {
      AgreePort(specs, m, b, p);
    }
    if s :| s in specs && !ValidPon(specs[s]) {
      // A count above the maximum lets the validator accept a port without OIDs;
      // a count below one hides ports the map has.
      var p := if specs[s] > MAX_PON_ID then MAX_PON_ID + 1 else 1;
      AgreePort(specs, m, s, p);
    }
  }

  /** A request is accepted with the numbers its texts denote, for a slot of the topology and a PON up to its count. */
  lemma AcceptedExactly(specs: map<int, int>, boardText: string, ponText: string)
    requires specs != map[]
    ensures ValidateParams(specs, boardText, ponText) ==
      if Atoi(boardText).Some? && Atoi(ponText).Some? && Atoi(boardText).value in specs
         && 1 <= Atoi(ponText).value <= specs[Atoi(boardText).value]
      then Some((Atoi(boardText).value, Atoi(ponText).value)) else None
  {
  }

  /** A topology read from text never makes the map builder fail, and validator and map agree on every port. */
  lemma ParsedTopologyAgrees(specs: map<int, int>, m: OidMap, boardText: string, ponText: string)
    requires specs != map[] && InRange(specs) && IsOidMap(specs, m)
    ensures ValidateParams(specs, boardText, ponText).Some? <==>
      (Atoi(boardText).Some? && Atoi(ponText).Some?
       && GetBoardPonConfig(m, Atoi(boardText).value, Atoi(ponText).value).Some?)
  {
    AcceptedExactly(specs, boardText, ponText);
    if Atoi(boardText).Some? && Atoi(ponText).Some? {
      FoundExactly(specs, m, Atoi(boardText).value, Atoi(ponText).value);
    }
  }

  lemma FoundExactly(specs: map<int, int>, m: OidMap, board: int, pon: int)
    requires InRange(specs) && IsOidMap(specs, m)
    ensures GetBoardPonConfig(m, board, pon).Some? <==> board in specs && 1 <= pon <= specs[board]
  {
    assert BoardPonKey(board, pon) in m <==> PortOf(specs, BoardPonKey(board, pon));
  }

  // ----- what a board text says

  lemma NumberHasNoSpace(n: int)
    ensures forall c :: c in Itoa(n) ==> !IsSpace(c)
  {
    ItoaShape(n);
  }

  /** "5:8" is slot 5 with 8 PONs; with an unusable count the slot counts with the default. */
  lemma SlotWithPons(slot: int, pons: int)
    requires ValidSlot(slot) && IsInt64(pons)
    ensures ParseSpec(Itoa(slot) + ":" + Itoa(pons)) == Some(Spec(slot, if ValidPon(pons) then Some(pons) else None))
  {
    NumberHasNoSpace(slot);
    NumberHasNoSpace(pons);
    ItoaHasNo(slot, ':');
    ParseOfItoa(slot);
    ParseOfItoa(pons);
    ColonPart(Itoa(slot), Itoa(pons), slot, pons);
  }

  lemma ColonPart(a: string, b: string, slot: int, pons: int)
    requires (forall c :: c in a ==> !IsSpace(c)) && (forall c :: c in b ==> !IsSpace(c)) && Free(a, ':')
    requires Atoi(a) == Some(slot) && Atoi(b) == Some(pons) && ValidSlot(slot)
    ensures ParseSpec(a + ":" + b) == Some(Spec(slot, if ValidPon(pons) then Some(pons) else None))
  {
    var part := a + [':'] + b;
    assert !IsSpace(':');
    TrimNothing(part);
    TrimNothing(a);
    TrimNothing(b);
    IndexOfFirst(part, ':', a, b);
    assert part[..|a|] == a && part[|a| + 1..] == b;
  }

  /** "5" is slot 5 with the default count; a number that is no slot says nothing. */
  lemma SlotAlone(slot: int)
    requires IsInt64(slot)
    ensures ParseSpec(Itoa(slot)) == if ValidSlot(slot) then Some(Spec(slot, None)) else None
  {
    NumberHasNoSpace(slot);
    TrimNothing(Itoa(slot));
    ItoaHasNo(slot, ':');
    ItoaShape(slot);
    NoColon(Itoa(slot));
    ParseOfItoa(slot);
  }

  lemma NoColon(s: string)
    requires Free(s, ':')
    ensures IndexFrom(s, ':', 0) == |s| && s[..|s|] == s
  {
  }

  /** White space around a part, an empty part, and a part whose slot is no number do not count. */
  lemma SpacesIgnored(part: string)
    ensures ParseSpec(part) == ParseSpec(TrimSpace(part))
  {
    TrimTwice(part);
  }

  lemma TrimTwice(s: string)
    ensures TrimSpace(TrimSpace(s)) == TrimSpace(s)
  {
  }

  lemma EmptyPartSaysNothing(part: string)
    requires AllSpace(part)
    ensures ParseSpec(part) == None
  {
    AllSpaceTrimmed(part);
  }

  lemma {:induction false} AllSpaceTrimmed(s: string)
    requires AllSpace(s)
    ensures TrimSpace(s) == ""
    decreases |s|
  {
    if s == "" {
    } else {
      AllSpaceTrimmed(s[1..]);
    }
  }

  // ----- a topology written out and read back

  datatype SlotPons = SlotPons(slot: int, pons: int)

  function SpecText(x: SlotPons): string {
    Itoa(x.slot) + ":" + Itoa(x.pons)
  }

  function SpecTexts(xs: seq<SlotPons>): (texts: seq<string>)
    ensures |texts| == |xs| && forall i :: 0 <= i < |xs| ==> texts[i] == SpecText(xs[i])
  {
    seq(|xs|, i requires 0 <= i < |xs| => SpecText(xs[i]))
  }

  lemma SpecTextHasNoComma(x: SlotPons)
    ensures Free(SpecText(x), ',')
  {
    ItoaHasNo(x.slot, ',');
    ItoaHasNo(x.pons, ',');
  }

  /** Reading the text of a list of different in-range slots gives back exactly those slots and PON counts. */
  lemma SpecTextRoundTrip(xs: seq<SlotPons>, default: int, specs: map<int, int>)
    requires xs != [] && forall i :: 0 <= i < |xs| ==> ValidSlot(xs[i].slot) && ValidPon(xs[i].pons)
    requires forall i, j :: 0 <= i < j < |xs| ==> xs[i].slot != xs[j].slot
    requires SpecsOf(ParseParts(Split(Join(SpecTexts(xs), ','), ',')), default, specs)
    ensures forall i :: 0 <= i < |xs| ==> xs[i].slot in specs && specs[xs[i].slot] == xs[i].pons
    ensures forall s :: s in specs ==> exists i :: 0 <= i < |xs| && xs[i].slot == s
  {
    var texts := SpecTexts(xs);
    forall p | p in texts ensures Free(p, ',') {
      var i :| 0 <= i < |texts| && texts[i] == p;
      SpecTextHasNoComma(xs[i]);
    }
    SplitOfJoin(texts, ',');
    var said := ParseParts(texts);
    forall i | 0 <= i < |xs| ensures said[i] == Some(Spec(xs[i].slot, Some(xs[i].pons))) {
      SlotWithPons(xs[i].slot, xs[i].pons);
    }
    assert said[0].Some?;
    SaidGives(xs, said, default, specs);
  }

  lemma SaidGives(xs: seq<SlotPons>, said: seq<Option<Spec>>, default: int, specs: map<int, int>)
    requires |said| == |xs| && forall i :: 0 <= i < |xs| ==> said[i] == Some(Spec(xs[i].slot, Some(xs[i].pons)))
    requires forall i, j :: 0 <= i < j < |xs| ==> xs[i].slot != xs[j].slot
    requires LastWins(said, default, specs)
    ensures forall i :: 0 <= i < |xs| ==> xs[i].slot in specs && specs[xs[i].slot] == xs[i].pons
    ensures forall s :: s in specs ==> exists i :: 0 <= i < |xs| && xs[i].slot == s
  {
    forall i | 0 <= i < |xs| ensures xs[i].slot in specs && specs[xs[i].slot] == xs[i].pons {
      assert LastNamed(said, i);
    }
    forall s | s in specs ensures exists i :: 0 <= i < |xs| && xs[i].slot == s {
      var i :| 0 <= i < |said| && Names(said[i], s);
      assert xs[i].slot == s;
    }
  }

  /** A default PON count outside 1..16 becomes 16. */
  lemma DefaultPons(pons: int)
    ensures ClampPons(pons) == if 1 <= pons <= 16 then pons else 16
  {
  }

  /** Without any slot the topology is that of a C320: slots 1 and 2 with 16 PONs each. */
  lemma DefaultTopology(specs: map<int, int>)
    ensures OrDefault(specs) == if |specs| == 0 then map[1 := 16, 2 := 16] else specs
  {
    if specs != map[] {
      SomeMember(specs.Keys);
    }
  }

  /** What is found for a port are that port's own generated OIDs. */
  lemma FoundIsGenerated(boardPons: map<int, int>, m: OidMap, board: int, pon: int)
    requires IsOidMap(boardPons, m) && GetBoardPonConfig(m, board, pon).Some?
    ensures GetBoardPonConfig(m, board, pon) == GenerateBoardPonOID(board, pon)
  {
    assert BoardPonKey(board, pon) in m;
  }
}

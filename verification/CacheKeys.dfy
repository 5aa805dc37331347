/** Redis cache keys: which key holds which answer of which OLT, and why no two answers share one. */
module CacheKeys {
  import opened Text
  import opened Olts

  // ----- the key functions

  /** What a key caches about one PON port. */
  datatype Kind = OnuInfo | EmptyOnuId | SerialList | OnuDetail(onu: int)

  datatype Slot = Slot(board: int, pon: int, kind: Kind)

  const KEY_TYPE_ONU_INFO := "onu_info"
  const KEY_TYPE_EMPTY_ONU_ID := "empty_onu_id"

  /** "board_<board>_pon_<pon>" */
  function PortKey(board: int, pon: int): string {
    "board_" + PortNumbers(board, pon)
  }

  function PortNumbers(board: int, pon: int): string {
    Itoa(board) + "_pon_" + Itoa(pon)
  }

  function GenerateRedisKey(keyType: string, board: int, pon: int): string {
    if keyType == KEY_TYPE_EMPTY_ONU_ID then PortKey(board, pon) + "_empty_onu_id" else PortKey(board, pon)
  }

  function GenerateONUDetailRedisKey(board: int, pon: int, onu: int): string {
    PortKey(board, pon) + ("_onu_" + Itoa(onu) + "_detail")
  }

  function SerialListKey(board: int, pon: int): string {
    PortKey(board, pon) + "_serial_list"
  }

  function BaseKey(s: Slot): string {
    match s.kind
    case OnuInfo => GenerateRedisKey(KEY_TYPE_ONU_INFO, s.board, s.pon)
    case EmptyOnuId => GenerateRedisKey(KEY_TYPE_EMPTY_ONU_ID, s.board, s.pon)
    case SerialList => SerialListKey(s.board, s.pon)
    case OnuDetail(onu) => GenerateONUDetailRedisKey(s.board, s.pon, onu)
  }

  /** The prefix an OLT is registered with: none for the default OLT. */
  function CachePrefix(defaultOlt: string, olt: string): string {
    if olt == defaultOlt then "" else olt
  }

  function CacheKey(prefix: string, base: string): string {
    if prefix == "" then base else "olt_" + prefix + "_" + base
  }

  /** The Redis key of one cached answer of one OLT. */
  function KeyOf(defaultOlt: string, olt: string, s: Slot): string {
    CacheKey(CachePrefix(defaultOlt, olt), BaseKey(s))
  }

  /** The default OLT keeps the keys of a single-OLT instance; any other OLT's start with "olt_" and its id. */
  lemma DefaultKeepsKeys(defaultOlt: string, olt: string, board: int, pon: int)
    requires olt != ""
    ensures var key := "board_" + (Itoa(board) + "_pon_" + Itoa(pon));
      && KeyOf(defaultOlt, defaultOlt, Slot(board, pon, OnuInfo)) == key
      && (olt != defaultOlt ==> KeyOf(defaultOlt, olt, Slot(board, pon, OnuInfo)) == "olt_" + olt + "_" + key)
  {
  }

  // ----- a base key tells its slot

  /** The words of a base key between the underscores. */
  function Words(s: Slot): seq<string> {
    ["board", Itoa(s.board), "pon", Itoa(s.pon)] + Tail(s.kind)
  }

  lemma JoinFour(a: string, b: string, c: string, d: string, tail: seq<string>, sep: char)
    ensures Join([a, b, c, d] + tail, sep)
      == a + [sep] + (b + [sep] + c + [sep] + d) + (if tail == [] then "" else [sep] + Join(tail, sep))
  {
    var last := [d] + tail;
    if tail != [] {
      JoinCons(d, tail, sep);
    }
    JoinCons(c, last, sep);
    JoinCons(b, [c] + last, sep);
    JoinCons(a, [b] + ([c] + last), sep);
    assert [a, b, c, d] + tail == [a] + ([b] + ([c] + last));
  }

  lemma PortWords(board: int, pon: int, tail: seq<string>)
    ensures Join(["board", Itoa(board), "pon", Itoa(pon)] + tail, '_')
      == PortKey(board, pon) + (if tail == [] then "" else "_" + Join(tail, '_'))
  {
    JoinFour("board", Itoa(board), "pon", Itoa(pon), tail, '_');
    assert "board" + ['_'] == "board_" && ['_'] + "pon" + ['_'] == "_pon_";
  }

  function Tail(kind: Kind): seq<string> {
    match kind
    case OnuInfo => []
    case EmptyOnuId => ["empty", "onu", "id"]
    case SerialList => ["serial", "list"]
    case OnuDetail(onu) => ["onu", Itoa(onu), "detail"]
  }

  lemma JoinThree(a: string, b: string, c: string, sep: char)
    ensures Join([b, c], sep) == b + [sep] + c
    ensures Join([a, b, c], sep) == a + [sep] + b + [sep] + c
  {
    JoinCons(b, [c], sep);
    JoinCons(a, [b, c], sep);
    assert [b, c] == [b] + [c];
  }

  lemma EmptyTail()
    ensures "_" + Join(Tail(EmptyOnuId), '_') == "_empty_onu_id"
  {
    JoinThree("empty", "onu", "id", '_');
  }

  lemma SerialTail()
    ensures "_" + Join(Tail(SerialList), '_') == "_serial_list"
  {
    JoinThree("", "serial", "list", '_');
  }

  lemma DetailTail(onu: int)
    ensures "_" + Join(Tail(OnuDetail(onu)), '_') == "_onu_" + Itoa(onu) + "_detail"
  {
    JoinThree("onu", Itoa(onu), "detail", '_');
    assert "_" + "onu" + ['_'] == "_onu_" && ['_'] + "detail" == "_detail";
  }

  lemma BaseIsJoined(s: Slot)
    ensures BaseKey(s) == Join(Words(s), '_')
  {
    PortWords(s.board, s.pon, Tail(s.kind));
    match s.kind
    case OnuInfo =>
    case EmptyOnuId => EmptyTail();
    case SerialList => SerialTail();
    case OnuDetail(onu) => DetailTail(onu);
  }

  lemma WordsAreFree(s: Slot)
    ensures forall w :: w in Words(s) ==> Free(w, '_')
  {
    ItoaHasNo(s.board, '_');
    ItoaHasNo(s.pon, '_');
    if s.kind.OnuDetail? {
      ItoaHasNo(s.kind.onu, '_');
    }
  }

  lemma WordsOfBase(s: Slot)
    ensures Split(BaseKey(s), '_') == Words(s)
  {
    WordsAreFree(s);
    BaseIsJoined(s);
    SplitOfJoin(Words(s), '_');
  }

  lemma WordsInjective(s: Slot, t: Slot)
    requires Words(s) == Words(t)
    ensures s == t
  {
    assert Words(s)[1] == Words(t)[1] && Words(s)[3] == Words(t)[3];
    ItoaInjective(s.board, t.board);
    ItoaInjective(s.pon, t.pon);
    assert |Words(s)| == |Words(t)|;
    if s.kind.OnuDetail? || t.kind.OnuDetail? {
      assert Words(s)[4] == Words(t)[4];
      assert Words(s)[5] == Words(t)[5];
      ItoaInjective(s.kind.onu, t.kind.onu);
    }
  }

  lemma BaseKeyInjective(s: Slot, t: Slot)
    ensures BaseKey(s) == BaseKey(t) <==> s == t
  {
    if BaseKey(s) == BaseKey(t) {
      WordsOfBase(s);
      WordsOfBase(t);
      WordsInjective(s, t);
    }
  }

  // ----- the last "board_" marks the base

  ghost predicate OccursAt(s: string, part: string, i: int) {
    0 <= i <= |s| - |part| && s[i..i + |part|] == part
  }

  lemma FreeConcat(a: string, b: string, c: char)
    ensures Free(a + b, c) <==> Free(a, c) && Free(b, c)
  {
    assert forall i :: 0 <= i < |b| ==> (a + b)[|a| + i] == b[i];
    assert forall i :: 0 <= i < |a| ==> (a + b)[i] == a[i];
  }

  lemma Rest(a: string, b: string)
    requires a != ""
    ensures (a + b)[1..] == a[1..] + b && a <= a + b
  {
  }

  lemma NumbersHaveNoB(board: int, pon: int)
    ensures Free(PortNumbers(board, pon), 'b')
  {
    ItoaHasNo(board, 'b');
    ItoaHasNo(pon, 'b');
    FreeConcat(Itoa(board), "_pon_", 'b');
    FreeConcat(Itoa(board) + "_pon_", Itoa(pon), 'b');
  }

  lemma OneB(numbers: string)
    requires Free(numbers, 'b')
    ensures "board_" <= "board_" + numbers && Free(("board_" + numbers)[1..], 'b')
  {
    Rest("board_", numbers);
    assert Free("board_"[1..], 'b');
    FreeConcat("board_"[1..], numbers, 'b');
  }

  lemma PortHasOneB(board: int, pon: int)
    ensures "board_" <= PortKey(board, pon) && Free(PortKey(board, pon)[1..], 'b')
  {
    NumbersHaveNoB(board, pon);
    OneB(PortNumbers(board, pon));
  }

  function Suffix(kind: Kind): string {
    match kind
    case OnuInfo => ""
    case EmptyOnuId => "_empty_onu_id"
    case SerialList => "_serial_list"
    case OnuDetail(onu) => "_onu_" + Itoa(onu) + "_detail"
  }

  lemma BaseIsPortAndSuffix(s: Slot)
    ensures BaseKey(s) == PortKey(s.board, s.pon) + Suffix(s.kind)
  {
  }

  lemma DetailHasNoB(onu: int)
    ensures Free("_onu_" + Itoa(onu) + "_detail", 'b')
  {
    ItoaHasNo(onu, 'b');
    FreeConcat("_onu_", Itoa(onu), 'b');
    FreeConcat("_onu_" + Itoa(onu), "_detail", 'b');
  }

  lemma SuffixHasNoB(kind: Kind)
    ensures Free(Suffix(kind), 'b')
  {
    if kind.OnuDetail? {
      DetailHasNoB(kind.onu);
    }
  }

  /** A base key starts with the only 'b' it has. */
  lemma BaseHasOneB(s: Slot)
    ensures "board_" <= BaseKey(s) && Free(BaseKey(s)[1..], 'b')
  {
    PortHasOneB(s.board, s.pon);
    SuffixHasNoB(s.kind);
    BaseIsPortAndSuffix(s);
    Rest(PortKey(s.board, s.pon), Suffix(s.kind));
    FreeConcat(PortKey(s.board, s.pon)[1..], Suffix(s.kind), 'b');
  }

  /** A text that starts with its only 'b' occurs last where it was put. */
  lemma LastAtEnd(front: string, base: string)
    requires "board_" <= base && Free(base[1..], 'b')
    ensures OccursAt(front + base, "board_", |front|)
    ensures forall i :: OccursAt(front + base, "board_", i) ==> i <= |front|
  {
    var s := front + base;
    assert s[|front|..|front| + 6] == base[..6];
    forall i | |front| < i < |s| ensures s[i] != 'b' {
      assert s[i] == base[1..][i - |front| - 1];
    }
    forall i | OccursAt(s, "board_", i) ensures i <= |front| {
      assert s[i] == s[i..i + 6][0] == 'b';
    }
  }

  /** In any key, prefixed or not, the base starts at the last "board_", whatever the OLT id contains. */
  lemma LastBoardMarksBase(defaultOlt: string, olt: string, s: Slot)
    ensures var key, start := KeyOf(defaultOlt, olt, s), |KeyOf(defaultOlt, olt, s)| - |BaseKey(s)|;
      && start >= 0 && key[start..] == BaseKey(s)
      && OccursAt(key, "board_", start)
      && forall i :: OccursAt(key, "board_", i) ==> i <= start
  {
    var key, base := KeyOf(defaultOlt, olt, s), BaseKey(s);
    var front := key[..|key| - |base|];
    BaseHasOneB(s);
    assert key == front + base;
    LastAtEnd(front, base);
  }

  // ----- keys never collide

  /** Two keys are equal exactly when they cache the same slot under the same prefix. */
  lemma KeysCollideExactly(prefix: string, s: Slot, prefix': string, t: Slot)
    ensures CacheKey(prefix, BaseKey(s)) == CacheKey(prefix', BaseKey(t)) <==> prefix == prefix' && s == t
  {
    var key, key' := CacheKey(prefix, BaseKey(s)), CacheKey(prefix', BaseKey(t));
    if key == key' {
      LastBoardMarksBase("", prefix, s);
      LastBoardMarksBase("", prefix', t);
      assert key == KeyOf("", prefix, s) && key' == KeyOf("", prefix', t);
      assert |BaseKey(s)| == |BaseKey(t)|;
      BaseKeyInjective(s, t);
      PrefixOfKey(prefix, s);
      PrefixOfKey(prefix', t);
    }
  }

  /** What is between "olt_" and the base is the prefix. */
  lemma PrefixIn(prefix: string, base: string)
    requires prefix != ""
    ensures var key := CacheKey(prefix, base);
      key[0] == 'o' && |key| == 4 + |prefix| + 1 + |base| && key[4..4 + |prefix|] == prefix
  {
  }

  lemma PrefixOfKey(prefix: string, s: Slot)
    ensures var key := CacheKey(prefix, BaseKey(s));
      && |key| > 0 && (key[0] == 'o' <==> prefix != "")
      && (prefix != "" ==> |key| == 4 + |prefix| + 1 + |BaseKey(s)| && key[4..4 + |prefix|] == prefix)
  {
    BaseHasOneB(s);
    if prefix != "" {
      PrefixIn(prefix, BaseKey(s));
    } else {
      assert "board_"[0] == 'b';
    }
  }

  /** No two OLTs with admissible ids, and no two slots of one OLT, share a key: not through ids
      containing "_" or "board_", and not against the unprefixed keys of the default OLT. */
  lemma KeysNeverCollide(defaultOlt: string, olt: string, s: Slot, olt': string, t: Slot)
    requires MatchesIdPattern(olt) && MatchesIdPattern(olt')
    ensures KeyOf(defaultOlt, olt, s) == KeyOf(defaultOlt, olt', t) <==> olt == olt' && s == t
  {
    KeysCollideExactly(CachePrefix(defaultOlt, olt), s, CachePrefix(defaultOlt, olt'), t);
  }

  // ----- request coalescing

  /** The calls of one OLT about a port that are coalesced under a key of their own. */
  datatype Call =
    | ListInfo(board: int, pon: int)
    | OneOnu(board: int, pon: int, onu: int)
    | EmptyIds(board: int, pon: int)
    | SerialNumbers(board: int, pon: int)
    | UpdateEmptyIds(board: int, pon: int)

  /** What a coalescing key starts with. */
  function FlightName(c: Call): string {
    match c
    case ListInfo(_, _) => "onuinfo-b"
    case OneOnu(_, _, _) => "onu"
    case EmptyIds(_, _) => "empty_onu_id"
    case SerialNumbers(_, _) => "onu_id_and_serial_number"
    case UpdateEmptyIds(_, _) => "update_empty_onu_id"
  }

  function FlightKey(c: Call): string {
    if c.ListInfo? then FlightName(c) + Itoa(c.board) + "-p" + Itoa(c.pon)
    else FlightName(c) + ":" + (Itoa(c.board) + ":" + AfterBoard(c))
  }

  /** The numbers of a key after the board. */
  function AfterBoard(c: Call): string {
    if c.OneOnu? then Itoa(c.pon) + ":" + Itoa(c.onu) else Itoa(c.pon)
  }

  lemma ColonKey(c: Call)
    requires !c.ListInfo?
    ensures FlightKey(c) == FlightName(c) + [':'] + (Itoa(c.board) + [':'] + AfterBoard(c))
  {
  }

  lemma NamesDiffer(c: Call, d: Call)
    requires FlightName(c) == FlightName(d)
    ensures (c.ListInfo? <==> d.ListInfo?) && (c.OneOnu? <==> d.OneOnu?) && (c.EmptyIds? <==> d.EmptyIds?)
    ensures (c.SerialNumbers? <==> d.SerialNumbers?) && (c.UpdateEmptyIds? <==> d.UpdateEmptyIds?)
  {
    assert |FlightName(c)| == |FlightName(d)|;
  }

  lemma NamesHaveNoColon(c: Call)
    ensures Free(FlightName(c), ':') && (c.ListInfo? ==> Free(FlightName(c), 'p'))
  {
  }

  lemma ColonMarksList(c: Call)
    ensures Free(FlightKey(c), ':') <==> c.ListInfo?
  {
    if c.ListInfo? {
      ItoaHasNo(c.board, ':');
      ItoaHasNo(c.pon, ':');
      NamesHaveNoColon(c);
    } else {
      ColonKey(c);
      assert FlightKey(c)[|FlightName(c)|] == ':';
    }
  }

  /** A list key, cut at its only 'p'. */
  lemma ListKey(b: int, p: int)
    ensures FlightKey(ListInfo(b, p)) == "onuinfo-b" + Itoa(b) + "-" + ['p'] + Itoa(p)
    ensures Free("onuinfo-b" + Itoa(b) + "-", 'p')
  {
    NamesHaveNoColon(ListInfo(b, p));
    ItoaHasNo(b, 'p');
    FreeConcat("onuinfo-b", Itoa(b), 'p');
    FreeConcat("onuinfo-b" + Itoa(b), "-", 'p');
  }

  lemma Between(left: string, a: string, b: string, right: string)
    requires left + a + right == left + b + right
    ensures a == b
  {
    assert a == (left + a + right)[|left|..|left| + |a|];
    assert b == (left + b + right)[|left|..|left| + |b|];
  }

  lemma ListFlights(b: int, p: int, b': int, p': int)
    requires FlightKey(ListInfo(b, p)) == FlightKey(ListInfo(b', p'))
    ensures b == b' && p == p'
  {
    ListKey(b, p);
    ListKey(b', p');
    CutUnique("onuinfo-b" + Itoa(b) + "-", Itoa(p), "onuinfo-b" + Itoa(b') + "-", Itoa(p'), 'p');
    Between("onuinfo-b", Itoa(b), Itoa(b'), "-");
    ItoaInjective(b, b');
    ItoaInjective(p, p');
  }

  lemma ColonFlights(c: Call, d: Call)
    requires FlightKey(c) == FlightKey(d) && !c.ListInfo? && !d.ListInfo?
    ensures c == d
  {
    ColonKey(c);
    ColonKey(d);
    NamesHaveNoColon(c);
    NamesHaveNoColon(d);
    CutUnique(FlightName(c), Itoa(c.board) + [':'] + AfterBoard(c),
              FlightName(d), Itoa(d.board) + [':'] + AfterBoard(d), ':');
    NamesDiffer(c, d);
    ItoaHasNo(c.board, ':');
    ItoaHasNo(d.board, ':');
    CutUnique(Itoa(c.board), AfterBoard(c), Itoa(d.board), AfterBoard(d), ':');
    ItoaInjective(c.board, d.board);
    if c.OneOnu? {
      ItoaHasNo(c.pon, ':');
      ItoaHasNo(d.pon, ':');
      CutUnique(Itoa(c.pon), Itoa(c.onu), Itoa(d.pon), Itoa(d.onu), ':');
      ItoaInjective(c.onu, d.onu);
    }
    ItoaInjective(c.pon, d.pon);
  }

  lemma CallsAreSeparate(c: Call, d: Call)
    ensures FlightKey(c) == FlightKey(d) <==> c == d
  {
    if FlightKey(c) == FlightKey(d) {
      ColonMarksList(c);
      ColonMarksList(d);
      if c.ListInfo? {
        ListFlights(c.board, c.pon, d.board, d.pon);
      } else {
        ColonFlights(c, d);
      }
    }
  }

  /** Everything one OLT's singleflight group coalesces: calls about a port, the Gets of single OIDs
      they nest, and the detection of the uplinks. */
  datatype Flight = PortCall(call: Call) | OidGet(oid: string) | Uplink(prefix: string)

  /** An OID ends in a dot and an index; a prefix is none or an OLT id. */
  predicate IsFlight(f: Flight) {
    match f
    case PortCall(_) => true
    case OidGet(oid) => '.' in oid
    case Uplink(prefix) => prefix == "" || MatchesIdPattern(prefix)
  }

  function GroupKey(f: Flight): string {
    match f
    case PortCall(c) => FlightKey(c)
    case OidGet(oid) => oid
    case Uplink(prefix) => CacheKey(prefix, "uplink_topology")
  }

  lemma TailHasNoDot(c: Call)
    ensures Free(AfterBoard(c), '.')
  {
    ItoaHasNo(c.pon, '.');
    if c.OneOnu? {
      ItoaHasNo(c.onu, '.');
      FreeConcat(Itoa(c.pon), ":", '.');
      FreeConcat(Itoa(c.pon) + ":", Itoa(c.onu), '.');
    }
  }

  lemma NameHasNoDot(c: Call)
    ensures Free(FlightName(c), '.')
  {
  }

  lemma CallHasNoDot(c: Call)
    ensures Free(FlightKey(c), '.')
  {
    var name, board := FlightName(c), Itoa(c.board);
    NameHasNoDot(c);
    ItoaHasNo(c.board, '.');
    if c.ListInfo? {
      ItoaHasNo(c.pon, '.');
      FreeConcat(name, board, '.');
      FreeConcat(name + board, "-p", '.');
      FreeConcat(name + board + "-p", Itoa(c.pon), '.');
    } else {
      TailHasNoDot(c);
      FreeConcat(name, ":", '.');
      FreeConcat(board, ":", '.');
      FreeConcat(board + ":", AfterBoard(c), '.');
      FreeConcat(name + ":", board + ":" + AfterBoard(c), '.');
    }
  }

  /** An uplink key has neither a dot nor a colon. */
  lemma UplinkHasNo(prefix: string, c: char)
    requires (prefix == "" || MatchesIdPattern(prefix)) && (c == '.' || c == ':')
    ensures Free(CacheKey(prefix, "uplink_topology"), c)
  {
    assert Free("uplink_topology", c) && Free("olt_", c) && Free("_", c);
    if prefix != "" {
      assert Free(prefix, c);
      FreeConcat("olt_", prefix, c);
      FreeConcat("olt_" + prefix, "_", c);
      FreeConcat("olt_" + prefix + "_", "uplink_topology", c);
    }
  }

  /** Its first two letters tell an uplink key from a list key, and whether it has a prefix. */
  lemma UplinkStart(prefix: string)
    ensures var key := CacheKey(prefix, "uplink_topology");
      |key| >= 2 && key[..2] == if prefix == "" then "up" else "ol"
  {
  }

  lemma ListStart(c: Call)
    requires c.ListInfo?
    ensures |FlightKey(c)| >= 2 && FlightKey(c)[..2] == "on"
  {
  }

  lemma UplinkIsNoCall(prefix: string, c: Call)
    requires prefix == "" || MatchesIdPattern(prefix)
    ensures CacheKey(prefix, "uplink_topology") != FlightKey(c)
  {
    UplinkHasNo(prefix, ':');
    ColonMarksList(c);
    UplinkStart(prefix);
    if c.ListInfo? {
      ListStart(c);
      assert "up"[1] == 'p' && "ol"[1] == 'l' && "on"[1] == 'n';
    }
  }

  lemma UplinksAreSeparate(prefix: string, prefix': string)
    requires CacheKey(prefix, "uplink_topology") == CacheKey(prefix', "uplink_topology")
    ensures prefix == prefix'
  {
    UplinkStart(prefix);
    UplinkStart(prefix');
    assert "up"[0] == 'u' && "ol"[0] == 'o';
    if prefix != "" && prefix' != "" {
      PrefixIn(prefix, "uplink_topology");
      PrefixIn(prefix', "uplink_topology");
    }
  }

  /** Different flights of one OLT are never coalesced, so the shared result always has the type
      its caller asserts. */
  lemma FlightsAreSeparate(f: Flight, g: Flight)
    requires IsFlight(f) && IsFlight(g)
    ensures GroupKey(f) == GroupKey(g) <==> f == g
  {
    match (f, g)
    case (PortCall(c), PortCall(d)) => CallsAreSeparate(c, d);
    case (PortCall(c), OidGet(_)) => CallHasNoDot(c);
    case (OidGet(_), PortCall(d)) => CallHasNoDot(d);
    case (PortCall(c), Uplink(q)) => UplinkIsNoCall(q, c);
    case (Uplink(p), PortCall(d)) => UplinkIsNoCall(p, d);
    case (OidGet(_), OidGet(_)) =>
    case (OidGet(_), Uplink(q)) => UplinkHasNo(q, '.');
    case (Uplink(p), OidGet(_)) => UplinkHasNo(p, '.');
    case (Uplink(p), Uplink(q)) =>
      if GroupKey(f) == GroupKey(g) {
        UplinksAreSeparate(p, q);
      }
  }
}

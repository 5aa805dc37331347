/** One OLT's runtime configuration and the registry of OLTs built from decoded JSON entries. */
module Olts {
  import opened Text
  import opened Oids
  import opened Boards

  datatype OltConfig = OltConfig(
    id: string,
    userId: int,
    host: string,
    port: int,
    community: string,
    maxConcurrent: int,
    boards: seq<int>,
    boardPons: map<int, int>,
    ponsPerBoard: int,
    boardPonMap: OidMap,
    useWalk: bool)

  /** One decoded entry of the OLTS array. */
  datatype OltJson = OltJson(
    id: string, userId: int, host: string, port: int, community: string,
    maxConcurrent: int, boards: string, ponsPerBoard: int, walk: bool)

  datatype Error =
    | MissingHost | MissingCommunity | InvalidJson | NoOlts
    | BadEntry(index: nat) | InvalidId(id: string) | DuplicateId(id: string) | UnknownDefault(id: string)

  datatype Registry = Registry(olts: seq<OltConfig>, defaultOlt: string) | Failed(error: Error)

  predicate IsPort(port: int) {
    0 <= port < 0x1_0000
  }

  predicate IdChar(c: char) {
    'A' <= c <= 'Z' || 'a' <= c <= 'z' || '0' <= c <= '9' || c == '_' || c == '-'
  }

  /** ^[A-Za-z0-9_-]+$ */
  predicate MatchesIdPattern(id: string) {
    id != "" && forall i :: 0 <= i < |id| ==> IdChar(id[i])
  }

  /** The topology fields of a config describe one in-range, non-empty set of ports. */
  ghost predicate WellFormed(o: OltConfig) {
    && o.boardPons != map[] && InRange(o.boardPons)
    && SlotList(o.boards, o.boardPons)
    && IsOidMap(o.boardPons, o.boardPonMap)
  }

  predicate UniqueIds(olts: seq<OltConfig>) {
    forall i, j :: 0 <= i < j < |olts| ==> olts[i].id != olts[j].id
  }

  predicate HasId(olts: seq<OltConfig>, id: string) {
    exists i :: 0 <= i < |olts| && olts[i].id == id
  }

  /** uint16(n) */
  function ToUint16(n: int): int {
    n % 0x1_0000
  }

  /** An entry is accepted when it names an OLT, a host and a community. */
  predicate Acceptable(e: OltJson) {
    e.id != "" && e.host != "" && e.community != ""
  }

  /** What a config keeps of its entry, and the defaults it fills in. */
  ghost predicate Normalizes(e: OltJson, defaultMaxConcurrent: int, o: OltConfig) {
    && o.id == e.id && o.userId == e.userId && o.host == e.host && o.community == e.community
    && o.useWalk == e.walk
    && o.port == (if ToUint16(e.port) == 0 then 161 else ToUint16(e.port))
    && o.maxConcurrent >= 1
    && (e.maxConcurrent >= 1 ==> o.maxConcurrent == e.maxConcurrent)
    && (e.maxConcurrent < 1 <= defaultMaxConcurrent ==> o.maxConcurrent == defaultMaxConcurrent)
    && (e.maxConcurrent < 1 && defaultMaxConcurrent < 1 ==> o.maxConcurrent == 5)
    && SpecsOf(ParseParts(Split(e.boards, ',')), ClampPons(e.ponsPerBoard), o.boardPons)
    && WellFormed(o)
  }

  method OltFromJson(e: OltJson, defaultMaxConcurrent: int) returns (r: Option<OltConfig>)
    ensures r.Some? <==> e.id != "" && e.host != "" && e.community != ""
    ensures r.Some? ==> Normalizes(e, defaultMaxConcurrent, r.value)
  {
    if e.id == "" || e.host == "" || e.community == "" {
      return None;
    }
    var port := ToUint16(e.port);
    if port == 0 {
      port := 161;
    }
    var maxConc := e.maxConcurrent;
    if maxConc < 1 {
      maxConc := defaultMaxConcurrent;
    }
    if maxConc < 1 {
      maxConc := 5;
    }
    var defaultPons := e.ponsPerBoard;
    if defaultPons < 1 || defaultPons > MAX_PON_ID {
      defaultPons := MAX_PON_ID;
    }
    var boards, boardPons := ParseBoardSpecs(e.boards, defaultPons);
    var oidMap := InitializeBoardPonMapFromSpecs(boardPons);
    if oidMap.None? {
      return None;
    }
    r := Some(OltConfig(e.id, e.userId, e.host, port, e.community, maxConc,
                        boards, boardPons, defaultPons, oidMap.value, e.walk));
  }

  /** What the OLTS text decodes to: nothing given, malformed, or a list of entries. */
  datatype Source = Absent | Malformed | Entries(entries: seq<OltJson>)

  /** olts is what the source describes: the legacy OLT alone, or every entry normalized in order. */
  ghost predicate Describes(source: Source, legacy: OltConfig, olts: seq<OltConfig>) {
    match source
    case Absent => olts == [legacy.(id := if legacy.id == "" then "default" else legacy.id)]
    case Malformed => false
    case Entries(entries) =>
      entries != [] && Pairwise(entries, olts, Normalizing(legacy.maxConcurrent))
  }

  /** Every entry the source has can be turned into a config. */
  predicate Decodable(source: Source, legacy: OltConfig) {
    match source
    case Absent => legacy.host != "" && legacy.community != ""
    case Malformed => false
    case Entries(entries) => entries != [] && forall i :: 0 <= i < |entries| ==> Acceptable(entries[i])
  }

  method DecodeOlts(source: Source, legacy: OltConfig) returns (olts: seq<OltConfig>, error: Option<Error>)
    ensures error.None? <==> Decodable(source, legacy)
    ensures error.None? ==> olts != [] && Describes(source, legacy, olts)
  {
    olts := [];
    match source {
      case Absent =>
        if legacy.host == "" {
          return [], Some(MissingHost);
        }
        if legacy.community == "" {
          return [], Some(MissingCommunity);
        }
        return [if legacy.id == "" then legacy.(id := "default") else legacy], None;
      case Malformed =>
        return [], Some(InvalidJson);
      case Entries(entries) =>
        if entries == [] {
          return [], Some(NoOlts);
        }
        olts, error := DecodeEntries(entries, legacy.maxConcurrent, Normalizing(legacy.maxConcurrent));
    }
  }

  /** Every config relates to the entry at its place. */
  ghost predicate Pairwise(entries: seq<OltJson>, olts: seq<OltConfig>, rel: (OltJson, OltConfig) -> bool) {
    |olts| == |entries| && forall i :: 0 <= i < |olts| ==> rel(entries[i], olts[i])
  }

  ghost function Normalizing(maxConcurrent: int): (OltJson, OltConfig) -> bool {
    (e: OltJson, o: OltConfig) => Normalizes(e, maxConcurrent, o)
  }

  method DecodeEntry(e: OltJson, maxConcurrent: int, ghost rel: (OltJson, OltConfig) -> bool) returns (o: Option<OltConfig>)
    requires forall e, o :: Normalizes(e, maxConcurrent, o) ==> rel(e, o)
    ensures o.Some? <==> Acceptable(e)
    ensures o.Some? ==> rel(e, o.value)
  {
    o := OltFromJson(e, maxConcurrent);
  }

  method DecodeEntries(entries: seq<OltJson>, maxConcurrent: int, ghost rel: (OltJson, OltConfig) -> bool)
    returns (olts: seq<OltConfig>, error: Option<Error>)
    requires forall e, o :: Normalizes(e, maxConcurrent, o) ==> rel(e, o)
    ensures error.None? <==> forall i :: 0 <= i < |entries| ==> Acceptable(entries[i])
    ensures error.None? ==> Pairwise(entries, olts, rel)
  {
    olts := [];
    for i := 0 to |entries|
      invariant |olts| == i && forall k :: 0 <= k < i ==> rel(entries[k], olts[k])
      invariant forall k :: 0 <= k < i ==> Acceptable(entries[k])
    {
      var o := DecodeEntry(entries[i], maxConcurrent, rel);
      if o.None? {
        return [], Some(BadEntry(i));
      }
      olts := olts + [o.value];
    }
    error := None;
  }

  /** Ids are well formed and pairwise different. */
  predicate GoodIds(olts: seq<OltConfig>) {
    UniqueIds(olts) && forall i :: 0 <= i < |olts| ==> MatchesIdPattern(olts[i].id)
  }

  /** The registry's OLTs and default, or the first error. It fails only for an undecodable source,
      a bad or repeated id, or a default that names no OLT. */
  method BuildOltRegistry(source: Source, defaultEnv: string, legacy: OltConfig) returns (r: Registry)
    ensures r.Registry? ==>
      && Describes(source, legacy, r.olts) && GoodIds(r.olts) && r.olts != []
      && HasId(r.olts, r.defaultOlt)
      && r.defaultOlt == (if defaultEnv == "" then r.olts[0].id else defaultEnv)
    ensures r.Registry? <==>
      && Decodable(source, legacy)
      && exists olts :: Describes(source, legacy, olts) && GoodIds(olts)
           && (defaultEnv == "" || HasId(olts, defaultEnv))
  {
    var olts, error := DecodeOlts(source, legacy);
    if error.Some? {
      return Failed(error.value);
    }
    assert Describes(source, legacy, olts);
    var bad := ValidateIds(olts);
    if bad.Some? {
      return Failed(bad.value);
    }
    var defaultOlt := if defaultEnv == "" then olts[0].id else defaultEnv;
    if !HasId(olts, defaultOlt) {
      return Failed(UnknownDefault(defaultOlt));
    }
    r := Registry(olts, defaultOlt);
  }

  /** Whatever the source says, the OLTs handed to Reconcile have unique, well-formed ids
      and topologies on which validator and OID map agree. */
  lemma DescribedAreWellFormed(source: Source, legacy: OltConfig, olts: seq<OltConfig>, i: nat)
    requires Describes(source, legacy, olts) && i < |olts| && (source.Absent? ==> WellFormed(legacy))
    ensures WellFormed(olts[i])
  {
  }

  /** The first id that is malformed or repeats an earlier one. */
  method ValidateIds(olts: seq<OltConfig>) returns (bad: Option<Error>)
    ensures bad.None? <==> GoodIds(olts)
  {
    var seen: set<string> := {};
    for i := 0 to |olts|
      invariant forall id :: id in seen <==> exists k :: 0 <= k < i && olts[k].id == id
      invariant UniqueIds(olts[..i])
      invariant forall k :: 0 <= k < i ==> MatchesIdPattern(olts[k].id)
    {
      if !MatchesIdPattern(olts[i].id) {
        return Some(InvalidId(olts[i].id));
      }
      if olts[i].id in seen {
        return Some(DuplicateId(olts[i].id));
      }
      seen := seen + {olts[i].id};
      assert olts[..i + 1] == olts[..i] + [olts[i]];
      assert exists k :: 0 <= k < i + 1 && olts[k].id == olts[i].id;
    }
    assert olts[..|olts|] == olts;
    bad := None;
  }

  /** Ids are the non-empty texts over digits, letters, "-" and "_", by their code points. */
  lemma IdPatternExact(id: string)
    ensures MatchesIdPattern(id) <==> id != "" && forall c :: c in id ==>
      var n := c as int; n == 45 || 48 <= n <= 57 || 65 <= n <= 90 || n == 95 || 97 <= n <= 122
  {
    assert forall i :: 0 <= i < |id| ==> id[i] in id;
  }

  /** A port that fits 16 bits is kept; any other is taken modulo 2^16. */
  lemma PortKept(n: int)
    ensures 0 <= ToUint16(n) < 65536
    ensures 0 <= n < 65536 ==> ToUint16(n) == n
    ensures ToUint16(n + 65536) == ToUint16(n)
  {
  }

  /** A single OLT needs a host and a community; a list needs entries that all have an id, a host and a community. */
  lemma DecodableMeans(source: Source, legacy: OltConfig)
    ensures Decodable(source, legacy) <==>
      || (source.Absent? && legacy.host != "" && legacy.community != "")
      || (source.Entries? && |source.entries| > 0
          && forall e :: e in source.entries ==> e.id != "" && e.host != "" && e.community != "")
  {
    if source.Entries? {
      assert forall i :: 0 <= i < |source.entries| ==> source.entries[i] in source.entries;
    }
  }
}

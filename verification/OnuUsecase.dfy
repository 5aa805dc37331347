/** The reads of one OLT's ONUs over the Redis instance all OLTs share. The device's answers and
    whether a Redis command succeeds are parameters. */
module OnuUsecase {
  import opened Text
  import opened Sorting
  import opened Boards
  import opened Olts
  import opened CacheKeys
  import opened OnuList
  import opened RedisStore
  import opened Runs

  /** What the device answers: to a walk of an OID and to a Get; None is an error. */
  datatype Device = Device(walk: string -> Option<seq<Pdu>>, get: Answers)

  // ----- the serial list

  function SerialOf(p: Port, answers: Answers, pdu: Pdu): Option<OnuSerial> {
    var id := ExtractIDOnuID(pdu.name);
    match answers([p.baseOid1 + p.oids.serialOid + "." + Itoa(id)])
    case None => None
    case Some(vs) => if vs == [] then None else Some(OnuSerial(p.board, p.pon, id, ExtractSerialNumber(vs[0])))
  }

  /** The serial numbers that could be read, in walk order. */
  function SerialsOf(p: Port, answers: Answers, walk: seq<Pdu>): seq<OnuSerial> {
    if walk == [] then []
    else
      var init, last := SerialsOf(p, answers, walk[..|walk| - 1]), SerialOf(p, answers, walk[|walk| - 1]);
      if last.None? then init else init + [last.value]
  }

  lemma {:induction false} SerialsOfPort(p: Port, answers: Answers, walk: seq<Pdu>)
    ensures forall s :: s in SerialsOf(p, answers, walk) ==> s.board == p.board && s.pon == p.pon
  {
    if walk == [] {
    } else {
      SerialsOfPort(p, answers, walk[..|walk| - 1]);
    }
  }

  /** A serial number is read from the serial column, one Get an ONU, and cut like that of a record. */
  lemma SerialHasFields(p: Port, answers: Answers, value: string -> Value, pdu: Pdu)
    requires AnswersEach(answers, value)
    ensures var s := SerialOf(p, answers, pdu);
      && s.Some? && s.value.board == p.board && s.value.pon == p.pon && s.value.id == ExtractIDOnuID(pdu.name)
      && IsSerial(value(p.baseOid1 + p.oids.serialOid + "." + Itoa(s.value.id)), s.value.serialNumber)
  {
    var oids := [p.baseOid1 + p.oids.serialOid + "." + Itoa(ExtractIDOnuID(pdu.name))];
    assert answers(oids).Some? && answers(oids).value[0] == value(oids[0]);
    SerialExact(value(oids[0]));
  }

  /** An ONU whose Get fails or comes back empty is left out. */
  lemma UnreadSerialLeftOut(p: Port, answers: Answers, pdu: Pdu)
    requires forall oids :: answers(oids) == None || answers(oids) == Some([])
    ensures SerialOf(p, answers, pdu) == None
  {
  }

  /** Whose serial numbers are listed: those of the walked ONUs that could be read, as often as they were walked. */
  lemma {:induction false} SerialsListed(p: Port, answers: Answers, walk: seq<Pdu>, x: OnuSerial)
    ensures x in SerialsOf(p, answers, walk) <==> exists i :: SerialAt(p, answers, walk, i, x)
  {
    if walk == [] {
    } else {
      var n := |walk| - 1;
      SerialsListed(p, answers, walk[..n], x);
      assert forall i :: SerialAt(p, answers, walk[..n], i, x) ==> SerialAt(p, answers, walk, i, x);
      if i :| SerialAt(p, answers, walk, i, x) {
        assert i == n || SerialAt(p, answers, walk[..n], i, x);
      }
      if SerialOf(p, answers, walk[n]) == Some(x) {
        assert SerialAt(p, answers, walk, n, x);
      }
    }
  }

  ghost predicate SerialAt(p: Port, answers: Answers, walk: seq<Pdu>, i: int, x: OnuSerial) {
    0 <= i < |walk| && SerialOf(p, answers, walk[i]) == Some(x)
  }

  ghost predicate IsSerialList(p: Port, answers: Answers, walk: seq<Pdu>, list: seq<OnuSerial>) {
    Sorted(BySerialId(), list) && multiset(list) == multiset(SerialsOf(p, answers, walk))
  }

  method BuildSerials(p: Port, answers: Answers, walk: seq<Pdu>) returns (list: seq<OnuSerial>)
    ensures IsSerialList(p, answers, walk, list)
  {
    list := [];
    for n := 0 to |walk|
      invariant list == SerialsOf(p, answers, walk[..n])
    {
      assert walk[..n + 1][..n] == walk[..n];
      var serial := SerialOf(p, answers, walk[n]);
      if serial.Some? {
        list := list + [serial.value];
      }
    }
    assert walk[..|walk|] == walk;
    list := Sort(BySerialId(), list);
  }

  // ----- what is built fits its slot

  ghost predicate KeepsPort(record: Pdu -> OnuList.OnuInfo, board: int, pon: int) {
    forall pdu :: record(pdu).board == board && record(pdu).pon == pon
  }

  lemma RecorderKeepsPort(p: Port, answers: Answers)
    ensures KeepsPort(Recorder(p, answers), p.board, p.pon)
  {
  }

  lemma ListOfPort(record: Pdu -> OnuList.OnuInfo, board: int, pon: int, walk: seq<Pdu>, list: seq<OnuList.OnuInfo>)
    requires KeepsPort(record, board, pon) && IsOnuList(record, walk, list)
    ensures Fits(Slot(board, pon, CacheKeys.OnuInfo), InfoList(list))
  {
    forall i | 0 <= i < |list| ensures list[i].board == board && list[i].pon == pon {
      RecordedFromLast(record, walk, list, i);
      var j :| LastOf(walk, j) && list[i] == record(walk[j]);
    }
  }

  lemma BuiltListFits(p: Port, answers: Answers, walk: seq<Pdu>, list: seq<OnuList.OnuInfo>)
    requires IsOnuList(Recorder(p, answers), walk, list)
    ensures Fits(Slot(p.board, p.pon, CacheKeys.OnuInfo), InfoList(list))
  {
    RecorderKeepsPort(p, answers);
    ListOfPort(Recorder(p, answers), p.board, p.pon, walk, list);
  }

  lemma SerialsFit(p: Port, answers: Answers, walk: seq<Pdu>, list: seq<OnuSerial>)
    requires IsSerialList(p, answers, walk, list)
    ensures Fits(Slot(p.board, p.pon, SerialList), Serials(list))
  {
    SerialsOfPort(p, answers, walk);
    forall i | 0 <= i < |list| ensures list[i].board == p.board && list[i].pon == p.pon {
      assert list[i] in multiset(SerialsOf(p, answers, walk));
    }
  }

  // ----- the pre-warm

  datatype PreWarmFetch = ListFetch(port: BoardPonKey) | SerialFetch(port: BoardPonKey)

  /** Only the given ports, each port's list before its serial numbers, no port twice. */
  ghost predicate PreWarmed(ports: set<BoardPonKey>, fetches: seq<PreWarmFetch>) {
    && (forall i :: 0 <= i < |fetches| ==> fetches[i].port in ports)
    && (forall i :: 0 <= i < |fetches| ==> fetches[i].ListFetch? == (i % 2 == 0))
    && (forall i :: 0 < i < |fetches| && i % 2 == 1 ==> fetches[i].port == fetches[i - 1].port)
    && forall i, j :: 0 <= i < j < |fetches| && i % 2 == 0 && j % 2 == 0 ==> fetches[i].port != fetches[j].port
  }

  /** All ports but the rest are done. */
  ghost predicate WarmedBut(ports: set<BoardPonKey>, rest: set<BoardPonKey>, fetches: seq<PreWarmFetch>) {
    rest <= ports && PreWarmed(ports - rest, fetches) && |fetches| == 2 * |ports - rest|
  }

  lemma WarmedNext(ports: set<BoardPonKey>, rest: set<BoardPonKey>, before: seq<PreWarmFetch>, k: BoardPonKey,
                   fetches: seq<PreWarmFetch>)
    requires WarmedBut(ports, rest, before) && k in rest
    requires fetches == before || fetches == before + [ListFetch(k)] || fetches == before + [ListFetch(k), SerialFetch(k)]
    ensures PreWarmed(ports, fetches)
    ensures |fetches| == |before| + 2 ==> WarmedBut(ports, rest - {k}, fetches)
  {
    PreWarmedNext(ports - rest, before, k, fetches);
    assert ports - (rest - {k}) == (ports - rest) + {k};
  }

  lemma PreWarmedNext(done: set<BoardPonKey>, before: seq<PreWarmFetch>, k: BoardPonKey, fetches: seq<PreWarmFetch>)
    requires PreWarmed(done, before) && k !in done && |before| % 2 == 0
    requires fetches == before || fetches == before + [ListFetch(k)] || fetches == before + [ListFetch(k), SerialFetch(k)]
    ensures PreWarmed(done + {k}, fetches)
  {
  }

  /** One fetch of the pre-warm: the store it started from and the commands it issued. */
  datatype Visit = Visit(fetch: PreWarmFetch, start: Store, commands: seq<Command>)

  /** The visits follow each other, with other requests in between. */
  ghost predicate Linked(defaultOlt: string, me: nat, before: Store, visits: seq<Visit>, after: Store)
    decreases |visits|
  {
    if visits == [] then OthersLead(defaultOlt, me, before, after)
    else
      var v := visits[|visits| - 1];
      Linked(defaultOlt, me, before, visits[..|visits| - 1], v.start) && Issues(defaultOlt, me, v.start, v.commands, after)
  }

  /** The n-th fetch is the n-th visit, which was done as told. */
  ghost predicate Matches(done: (nat, Visit) -> bool, fetches: seq<PreWarmFetch>, visits: seq<Visit>) {
    |visits| == |fetches| && forall n :: 0 <= n < |visits| ==> visits[n].fetch == fetches[n] && done(n, visits[n])
  }

  method MatchesNext(ghost done: (nat, Visit) -> bool, fetches: seq<PreWarmFetch>, ghost visits: seq<Visit>,
                     fetch: PreWarmFetch, ghost v: Visit)
    returns (fetches': seq<PreWarmFetch>, ghost visits': seq<Visit>)
    requires Matches(done, fetches, visits) && v.fetch == fetch && done(|visits|, v)
    ensures Matches(done, fetches', visits') && fetches' == fetches + [fetch] && visits' == visits + [v]
  {
    fetches', visits' := fetches + [fetch], visits + [v];
  }

  ghost predicate NoneAfter(cancelled: nat -> bool, n: nat) {
    forall i: nat :: i < n ==> !cancelled(i)
  }

  /** A port's fetches, when the context is done before the first one, or before the second one. */
  function PortFetches(k: BoardPonKey, first: bool, second: bool): seq<PreWarmFetch> {
    if first then [] else if second then [ListFetch(k)] else [ListFetch(k), SerialFetch(k)]
  }

  lemma NoneAfterPort(cancelled: nat -> bool, n: nat, k: BoardPonKey)
    requires NoneAfter(cancelled, n)
    ensures var m := n + |PortFetches(k, cancelled(n), cancelled(n + 1))|;
      NoneAfter(cancelled, m) && (m < n + 2 ==> cancelled(m))
  {
  }

  /** The pre-warm is over: every port is done, or the context was done before the next fetch. */
  ghost predicate Ended(ports: set<BoardPonKey>, fetches: seq<PreWarmFetch>, cancelled: nat -> bool) {
    && PreWarmed(ports, fetches) && NoneAfter(cancelled, |fetches|)
    && (|fetches| == 2 * |ports| || cancelled(|fetches|))
  }

  ghost predicate Progress(ports: set<BoardPonKey>, rest: set<BoardPonKey>, fetches: seq<PreWarmFetch>, cancelled: nat -> bool) {
    WarmedBut(ports, rest, fetches) && NoneAfter(cancelled, |fetches|)
  }

  lemma NothingWarmed(ports: set<BoardPonKey>, cancelled: nat -> bool)
    ensures Progress(ports, ports, [], cancelled)
  {
    assert ports - ports == {};
  }

  lemma AllWarmed(ports: set<BoardPonKey>, fetches: seq<PreWarmFetch>, cancelled: nat -> bool)
    requires Progress(ports, {}, fetches, cancelled)
    ensures Ended(ports, fetches, cancelled)
  {
    assert ports - {} == ports;
  }

  lemma ProgressNext(ports: set<BoardPonKey>, rest: set<BoardPonKey>, before: seq<PreWarmFetch>, k: BoardPonKey,
                     fetches: seq<PreWarmFetch>, cancelled: nat -> bool)
    requires Progress(ports, rest, before, cancelled) && k in rest
    requires fetches == before + PortFetches(k, cancelled(|before|), cancelled(|before| + 1))
    ensures if |fetches| < |before| + 2 then Ended(ports, fetches, cancelled)
            else Progress(ports, rest - {k}, fetches, cancelled)
  {
    WarmedNext(ports, rest, before, k, fetches);
    NoneAfterPort(cancelled, |before|, k);
  }

  function AllCommands(visits: seq<Visit>): seq<Command> {
    if visits == [] then [] else AllCommands(visits[..|visits| - 1]) + visits[|visits| - 1].commands
  }

  lemma LinkedWait(defaultOlt: string, me: nat, before: Store, visits: seq<Visit>, mid: Store, after: Store)
    requires Linked(defaultOlt, me, before, visits, mid) && OthersLead(defaultOlt, me, mid, after)
    ensures Linked(defaultOlt, me, before, visits, after)
  {
    if visits == [] {
      ReachesThrough(RedisStore.Acts(defaultOlt), NotOf(me), before, mid, after);
    } else {
      var v := visits[|visits| - 1];
      IssuesWait(defaultOlt, me, v.start, v.commands, mid, after);
    }
  }

  lemma LinkedNext(defaultOlt: string, me: nat, before: Store, visits: seq<Visit>, v: Visit, after: Store)
    requires Linked(defaultOlt, me, before, visits, v.start) && Issues(defaultOlt, me, v.start, v.commands, after)
    ensures Linked(defaultOlt, me, before, visits + [v], after)
  {
    assert (visits + [v])[..|visits|] == visits;
  }

  /** Together the visits issue exactly their commands, in order. */
  lemma {:induction false} LinkedIssues(defaultOlt: string, me: nat, before: Store, visits: seq<Visit>, after: Store)
    requires Linked(defaultOlt, me, before, visits, after)
    ensures Issues(defaultOlt, me, before, AllCommands(visits), after)
    decreases |visits|
  {
    if visits == [] {
    } else {
      var init, v := visits[..|visits| - 1], visits[|visits| - 1];
      LinkedIssues(defaultOlt, me, before, init, v.start);
      IssuesThrough(defaultOlt, me, before, AllCommands(init), v.start, v.commands, after);
    }
  }

  // ----- the use case of one OLT

  class OnuUsecase {
    const olt: string
    const oltId: string
    const redis: Redis
    const baseOid1: string
    const baseOid2: string
    const ports: OidMap
    const showPower: int -> string

    ghost predicate Valid()
      reads redis
    {
      redis.Valid() && MatchesIdPattern(olt) && oltId == CachePrefix(redis.defaultOlt, olt)
    }

    ghost function Key(board: int, pon: int, kind: Kind): string {
      KeyOf(redis.defaultOlt, olt, Slot(board, pon, kind))
    }

    /** Since then this request has issued exactly these commands, and other requests any. */
    ghost predicate Issued(me: nat, before: Store, commands: seq<Command>)
      reads redis
    {
      Issues(redis.defaultOlt, me, before, commands, redis.Now())
    }

    constructor (olt: string, oltId: string, redis: Redis, baseOid1: string, baseOid2: string, ports: OidMap,
                 showPower: int -> string)
      requires redis.Valid() && MatchesIdPattern(olt) && oltId == CachePrefix(redis.defaultOlt, olt)
      ensures Valid() && this.redis == redis && this.olt == olt && this.ports == ports
    {
      this.olt, this.oltId, this.redis := olt, oltId, redis;
      this.baseOid1, this.baseOid2, this.ports, this.showPower := baseOid1, baseOid2, ports, showPower;
    }

    // ----- commands among those of all other requests

    method Yield(ghost me: nat, ghost before: Store, ghost commands: seq<Command>)
      requires Valid() && Issued(me, before, commands)
      modifies redis
      ensures Valid() && Issued(me, before, commands)
    {
      ghost var mid := redis.Now();
      redis.Yield(me);
      IssuesWait(redis.defaultOlt, me, before, commands, mid, redis.Now());
    }

    /** Saves under the key of a slot, which is written out by the caller. */
    method SaveAs(ghost me: nat, ghost before: Store, key: string, ghost slot: Slot, value: Cached, ok: bool)
      requires Valid() && Issued(me, before, []) && key == CacheKey(oltId, BaseKey(slot)) && Fits(slot, value)
      modifies redis
      ensures Valid() && Issued(me, before, if ok then [Put(me, olt, slot, value)] else [])
    {
      ghost var mid := redis.Now();
      redis.Set(me, key, value, ok, olt, slot);
      if ok {
        IssuesOneMore(redis.defaultOlt, me, before, [], mid, Put(me, olt, slot, value));
        assert [] + [Put(me, olt, slot, value)] == [Put(me, olt, slot, value)];
      }
    }

    /** Deletes the key of a slot, which is written out by the caller. */
    method DeleteAs(ghost me: nat, ghost before: Store, ghost commands: seq<Command>, key: string, ghost slot: Slot, ok: bool)
      requires Valid() && Issued(me, before, commands) && key == CacheKey(oltId, BaseKey(slot))
      modifies redis
      ensures Valid() && Issued(me, before, commands + Deletion(me, slot, ok))
    {
      ghost var mid := redis.Now();
      redis.Delete(me, key, ok);
      if ok {
        IssuesOneMore(redis.defaultOlt, me, before, commands, mid, Del(me, key));
      } else {
        assert commands + [] == commands;
      }
      Yield(me, before, commands + Deletion(me, slot, ok));
    }

    method DeleteFirst(ghost me: nat, ghost before: Store, key: string, ghost slot: Slot, ok: bool)
      requires Valid() && Issued(me, before, []) && key == CacheKey(oltId, BaseKey(slot))
      modifies redis
      ensures Valid() && Issued(me, before, Deletion(me, slot, ok))
    {
      DeleteAs(me, before, [], key, slot, ok);
      assert [] + Deletion(me, slot, ok) == Deletion(me, slot, ok);
    }

    ghost function Deletion(me: nat, slot: Slot, ok: bool): seq<Command> {
      if ok then [Del(me, KeyOf(redis.defaultOlt, olt, slot))] else []
    }

    // ----- the port and its walk

    function PortOf(board: int, pon: int): Option<Port> {
      match GetBoardPonConfig(ports, board, pon)
      case None => None
      case Some(oids) => Some(Port(board, pon, baseOid1, baseOid2, oids, showPower))
    }

    /** The ONU names of a port, walked on the device. */
    function WalkOf(device: Device, p: Port): Option<seq<Pdu>> {
      device.walk(baseOid1 + p.oids.nameOid)
    }

    /** A cached list counts when it can be read and is not empty: an empty one is stored as null. */
    ghost predicate InfoHit(s: Store, board: int, pon: int, readable: bool) {
      var key := Key(board, pon, CacheKeys.OnuInfo);
      readable && key in s.data && s.data[key].InfoList? && s.data[key].list != []
    }

    /** What the port's list is read from: this OLT's own saved answer when it can be read, else what the device
        answers now. */
    ghost predicate ListAnswer(start: Store, board: int, pon: int, device: Device, readable: bool,
                               r: Option<seq<OnuList.OnuInfo>>) {
      if PortOf(board, pon).None? then r == None
      else if InfoHit(start, board, pon, readable) then
        && r == Some(start.data[Key(board, pon, CacheKeys.OnuInfo)].list)
        && Save(olt, Slot(board, pon, CacheKeys.OnuInfo), InfoList(r.value)) in start.saved
      else Answered(device, PortOf(board, pon).value, r)
    }

    /** A fresh answer is saved, and nothing else is issued. */
    ghost function ListCommands(me: nat, start: Store, board: int, pon: int, readable: bool, writable: bool,
                                r: Option<seq<OnuList.OnuInfo>>): seq<Command> {
      if PortOf(board, pon).None? || InfoHit(start, board, pon, readable) then [] else Saving(me, board, pon, r, writable)
    }

    method GetByBoardIDAndPonID(ghost me: nat, board: int, pon: int, device: Device, readable: bool, writable: bool)
      returns (r: Option<seq<OnuList.OnuInfo>>)
      requires Valid()
      modifies redis
      ensures Valid()
      ensures r.Some? ==> Fits(Slot(board, pon, CacheKeys.OnuInfo), InfoList(r.value))
      ensures ListAnswer(old(redis.Now()), board, pon, device, readable, r)
      ensures Issued(me, old(redis.Now()), ListCommands(me, old(redis.Now()), board, pon, readable, writable, r))
    {
      ghost var before := redis.Now();
      IssuesNothing(redis.defaultOlt, me, before);
      var port := PortOf(board, pon);
      if port.None? {
        return None;
      }
      var key := CacheKey(oltId, GenerateRedisKey(KEY_TYPE_ONU_INFO, board, pon));
      if readable && key in redis.data {
        StoredIsOwn(redis.defaultOlt, before, olt, Slot(board, pon, CacheKeys.OnuInfo));
        var cached := redis.data[key].list;
        if cached != [] {
          return Some(cached);
        }
      }
      r := FetchList(me, before, board, pon, port.value, device, key, writable);
    }

    method FetchList(ghost me: nat, ghost before: Store, board: int, pon: int, p: Port, device: Device, key: string, writable: bool)
      returns (r: Option<seq<OnuList.OnuInfo>>)
      requires Valid() && Issued(me, before, []) && Some(p) == PortOf(board, pon)
      requires key == CacheKey(oltId, BaseKey(Slot(board, pon, CacheKeys.OnuInfo)))
      modifies redis
      ensures Valid() && Issued(me, before, Saving(me, board, pon, r, writable)) && Answered(device, p, r)
      ensures r.Some? ==> Fits(Slot(board, pon, CacheKeys.OnuInfo), InfoList(r.value))
    {
      var walk := WalkOf(device, p);
      if walk.None? {
        return None;
      }
      var list := BuildList(Recorder(p, device.get), walk.value);
      BuiltListFits(p, device.get, walk.value, list);
      Yield(me, before, []);
      SaveAs(me, before, key, Slot(board, pon, CacheKeys.OnuInfo), InfoList(list), writable);
      r := Some(list);
    }

    /** The command that saves a list. */
    ghost function Saving(me: nat, board: int, pon: int, r: Option<seq<OnuList.OnuInfo>>, writable: bool): seq<Command> {
      if r.Some? && writable then [Put(me, olt, Slot(board, pon, CacheKeys.OnuInfo), InfoList(r.value))] else []
    }

    /** The answer is the list of what the device's walk and Gets return now. */
    ghost predicate Answered(device: Device, p: Port, r: Option<seq<OnuList.OnuInfo>>) {
      match WalkOf(device, p)
      case None => r == None
      case Some(walk) => r.Some? && IsOnuList(Recorder(p, device.get), walk, r.value)
    }

    /** Every record of a fresh list has the name of a variable walked in the port's name column, and the details
        its id has in the port's type, serial, RX power and status columns. */
    lemma AnsweredFields(board: int, pon: int, device: Device, value: string -> Value, r: Option<seq<OnuList.OnuInfo>>, i: nat)
      requires GetBoardPonConfig(ports, board, pon).Some? && AnswersEach(device.get, value)
      requires Answered(device, PortOf(board, pon).value, r) && r.Some? && i < |r.value|
      ensures var oids := GetBoardPonConfig(ports, board, pon).value;
        && device.walk(baseOid1 + oids.nameOid).Some?
        && exists j :: 0 <= j < |device.walk(baseOid1 + oids.nameOid).value|
             && HasFields(board, pon, baseOid2 + oids.typeOid, baseOid1 + oids.serialOid, baseOid1 + oids.rxPowerOid,
                          baseOid1 + oids.statusOid, showPower, value, device.walk(baseOid1 + oids.nameOid).value[j], r.value[i])
    {
      var p := PortOf(board, pon).value;
      var walk := device.walk(baseOid1 + p.oids.nameOid).value;
      RecordedFromLast(Recorder(p, device.get), walk, r.value, i);
      var j :| LastOf(walk, j) && r.value[i] == Recorder(p, device.get)(walk[j]);
      RecordHasFields(p, device.get, value, walk[j]);
    }

    /** The background refresh of a cached list. */
    method RefreshONUInfoCache(ghost me: nat, board: int, pon: int, device: Device, writable: bool)
      requires Valid() && PortOf(board, pon).Some?
      modifies redis
      ensures Valid()
      ensures exists r :: Answered(device, PortOf(board, pon).value, r)
                          && Issued(me, old(redis.Now()), Saving(me, board, pon, r, writable))
    {
      ghost var before := redis.Now();
      IssuesNothing(redis.defaultOlt, me, before);
      var key := CacheKey(oltId, GenerateRedisKey(KEY_TYPE_ONU_INFO, board, pon));
      var r := FetchList(me, before, board, pon, PortOf(board, pon).value, device, key, writable);
    }

    /** For the same answers of the device, the refresh and a foreground read give the same list, as
        long as different id texts of one number come with the same record. */
    lemma SameAnswers(device: Device, p: Port, r: Option<seq<OnuList.OnuInfo>>, r': Option<seq<OnuList.OnuInfo>>)
      requires Answered(device, p, r) && Answered(device, p, r')
      requires WalkOf(device, p).Some? ==> TiesAgree(Recorder(p, device.get), WalkOf(device, p).value)
      ensures r == r'
    {
      if r.Some? {
        RecorderKeepsId(p, device.get);
        OnlyList(Recorder(p, device.get), WalkOf(device, p).value, r.value, r'.value);
      }
    }

    // ----- free ids

    /** The port's free ids; an answer that cannot be saved is an error. */
    method GetEmptyOnuID(ghost me: nat, board: int, pon: int, device: Device, readable: bool, writable: bool)
      returns (r: Option<seq<OnuId>>)
      requires Valid()
      modifies redis
      ensures Valid()
      ensures r.Some? ==> Fits(Slot(board, pon, EmptyOnuId), FreeList(r.value))
      ensures PortOf(board, pon).None? ==> r == None && Issued(me, old(redis.Now()), [])
      ensures var key := Key(board, pon, EmptyOnuId);
        PortOf(board, pon).Some? ==>
          if readable && key in old(redis.data) then
            && r.Some? && old(redis.data)[key] == FreeList(r.value) && Issued(me, old(redis.Now()), [])
            && Save(olt, Slot(board, pon, EmptyOnuId), FreeList(r.value)) in old(redis.saved)
          else FreshFree(me, device, board, pon, writable, r, old(redis.Now()))
    {
      ghost var before := redis.Now();
      IssuesNothing(redis.defaultOlt, me, before);
      var port := PortOf(board, pon);
      if port.None? {
        return None;
      }
      var key := CacheKey(oltId, GenerateRedisKey(KEY_TYPE_EMPTY_ONU_ID, board, pon));
      if readable && key in redis.data {
        StoredIsOwn(redis.defaultOlt, before, olt, Slot(board, pon, EmptyOnuId));
        return Some(redis.data[key].ids);
      }
      r := SaveFreeIds(me, before, board, pon, device, writable);
    }

    /** Refreshes the cached free ids without reading the cache; false is an error. */
    method UpdateEmptyOnuID(ghost me: nat, board: int, pon: int, device: Device, writable: bool) returns (ok: bool)
      requires Valid()
      modifies redis
      ensures Valid()
      ensures PortOf(board, pon).None? ==> !ok && Issued(me, old(redis.Now()), [])
      ensures PortOf(board, pon).Some? ==>
        exists r: Option<seq<OnuId>> :: (r.Some? <==> ok) && FreshFree(me, device, board, pon, writable, r, old(redis.Now()))
    {
      ghost var before := redis.Now();
      IssuesNothing(redis.defaultOlt, me, before);
      if PortOf(board, pon).None? {
        return false;
      }
      var r := SaveFreeIds(me, before, board, pon, device, writable);
      ok := r.Some?;
    }

    /** The free ids by the device's walk, saved; an answer that cannot be saved is an error. */
    ghost predicate FreshFree(me: nat, device: Device, board: int, pon: int, writable: bool, r: Option<seq<OnuId>>, before: Store)
      requires PortOf(board, pon).Some?
      reads redis
    {
      var walk := WalkOf(device, PortOf(board, pon).value);
      && (r.Some? <==> walk.Some? && writable)
      && (r.Some? ==> FreeUpTo(board, pon, WalkedIds(walk.value), MAX_ONU_ID_PER_PON, r.value))
      && Issued(me, before, if r.Some? then [Put(me, olt, Slot(board, pon, EmptyOnuId), FreeList(r.value))] else [])
    }

    method SaveFreeIds(ghost me: nat, ghost before: Store, board: int, pon: int, device: Device, writable: bool)
      returns (r: Option<seq<OnuId>>)
      requires Valid() && Issued(me, before, []) && PortOf(board, pon).Some?
      modifies redis
      ensures Valid() && FreshFree(me, device, board, pon, writable, r, before)
      ensures r.Some? ==> Fits(Slot(board, pon, EmptyOnuId), FreeList(r.value))
    {
      var walk := WalkOf(device, PortOf(board, pon).value);
      if walk.None? {
        return None;
      }
      var free := FreeIds(board, pon, walk.value);
      var key := CacheKey(oltId, GenerateRedisKey(KEY_TYPE_EMPTY_ONU_ID, board, pon));
      Yield(me, before, []);
      SaveAs(me, before, key, Slot(board, pon, EmptyOnuId), FreeList(free), writable);
      r := if writable then Some(free) else None;
    }

    // ----- serial numbers

    ghost predicate SerialHit(s: Store, board: int, pon: int, noCache: bool, readable: bool) {
      var key := Key(board, pon, SerialList);
      !noCache && readable && key in s.data && s.data[key].Serials? && s.data[key].serials != []
    }

    /** What the port's serial numbers are read from; noCache forces a fresh read. */
    ghost predicate SerialAnswer(start: Store, board: int, pon: int, device: Device, noCache: bool, readable: bool,
                                 r: Option<seq<OnuSerial>>) {
      if PortOf(board, pon).None? then r == None
      else if SerialHit(start, board, pon, noCache, readable) then
        && r == Some(start.data[Key(board, pon, SerialList)].serials)
        && Save(olt, Slot(board, pon, SerialList), Serials(r.value)) in start.saved
      else FreshSerials(device, PortOf(board, pon).value, r)
    }

    ghost predicate FreshSerials(device: Device, p: Port, r: Option<seq<OnuSerial>>) {
      match WalkOf(device, p)
      case None => r == None
      case Some(walk) => r.Some? && IsSerialList(p, device.get, walk, r.value)
    }

    /** A fresh answer is saved, forced or not, and nothing else is issued. */
    ghost function SerialCommands(me: nat, start: Store, board: int, pon: int, noCache: bool, readable: bool, writable: bool,
                                  r: Option<seq<OnuSerial>>): seq<Command> {
      if PortOf(board, pon).None? || SerialHit(start, board, pon, noCache, readable) then []
      else SavingSerials(me, board, pon, r, writable)
    }

    ghost function SavingSerials(me: nat, board: int, pon: int, r: Option<seq<OnuSerial>>, writable: bool): seq<Command> {
      if r.Some? && writable then [Put(me, olt, Slot(board, pon, SerialList), Serials(r.value))] else []
    }

    method GetOnuIDAndSerialNumber(ghost me: nat, board: int, pon: int, device: Device, noCache: bool, readable: bool,
                                   writable: bool)
      returns (r: Option<seq<OnuSerial>>)
      requires Valid()
      modifies redis
      ensures Valid()
      ensures r.Some? ==> Fits(Slot(board, pon, SerialList), Serials(r.value))
      ensures SerialAnswer(old(redis.Now()), board, pon, device, noCache, readable, r)
      ensures Issued(me, old(redis.Now()), SerialCommands(me, old(redis.Now()), board, pon, noCache, readable, writable, r))
    {
      ghost var before := redis.Now();
      IssuesNothing(redis.defaultOlt, me, before);
      var port := PortOf(board, pon);
      if port.None? {
        return None;
      }
      var key := CacheKey(oltId, SerialListKey(board, pon));
      if !noCache && readable && key in redis.data {
        StoredIsOwn(redis.defaultOlt, before, olt, Slot(board, pon, SerialList));
        var cached := redis.data[key].serials;
        if cached != [] {
          return Some(cached);
        }
      }
      r := FetchSerials(me, before, board, pon, device, key, writable);
    }

    method FetchSerials(ghost me: nat, ghost before: Store, board: int, pon: int, device: Device, key: string, writable: bool)
      returns (r: Option<seq<OnuSerial>>)
      requires Valid() && Issued(me, before, []) && PortOf(board, pon).Some?
      requires key == CacheKey(oltId, BaseKey(Slot(board, pon, SerialList)))
      modifies redis
      ensures Valid() && Issued(me, before, SavingSerials(me, board, pon, r, writable))
      ensures FreshSerials(device, PortOf(board, pon).value, r)
      ensures r.Some? ==> Fits(Slot(board, pon, SerialList), Serials(r.value))
    {
      var p := PortOf(board, pon).value;
      var walk := WalkOf(device, p);
      if walk.None? {
        return None;
      }
      var list := BuildSerials(p, device.get, walk.value);
      SerialsFit(p, device.get, walk.value, list);
      Yield(me, before, []);
      SaveAs(me, before, key, Slot(board, pon, SerialList), Serials(list), writable);
      r := Some(list);
    }

    // ----- deleting

    /** Deletes the port's list, then its serial list. */
    method DeleteLists(ghost me: nat, ghost before: Store, ghost commands: seq<Command>, board: int, pon: int, infoOk: bool, serialOk: bool)
      requires Valid() && Issued(me, before, commands)
      modifies redis
      ensures Valid() && Issued(me, before, commands + ListDeletions(me, board, pon, infoOk, serialOk))
    {
      var infoKey := CacheKey(oltId, GenerateRedisKey(KEY_TYPE_ONU_INFO, board, pon));
      DeleteAs(me, before, commands, infoKey, Slot(board, pon, CacheKeys.OnuInfo), infoOk);
      ghost var more := commands + Deletion(me, Slot(board, pon, CacheKeys.OnuInfo), infoOk);
      var serialKey := CacheKey(oltId, SerialListKey(board, pon));
      DeleteAs(me, before, more, serialKey, Slot(board, pon, SerialList), serialOk);
      assert more + Deletion(me, Slot(board, pon, SerialList), serialOk) == commands + ListDeletions(me, board, pon, infoOk, serialOk);
    }

    ghost function ListDeletions(me: nat, board: int, pon: int, infoOk: bool, serialOk: bool): seq<Command> {
      Deletion(me, Slot(board, pon, CacheKeys.OnuInfo), infoOk) + Deletion(me, Slot(board, pon, SerialList), serialOk)
    }

    /** Deletes the port's list and serial list; false is an error, and nothing is deleted. */
    method DeleteCache(ghost me: nat, board: int, pon: int, infoOk: bool, serialOk: bool) returns (ok: bool)
      requires Valid()
      modifies redis
      ensures Valid() && (ok <==> PortOf(board, pon).Some? && infoOk)
      ensures Issued(me, old(redis.Now()), if ok then ListDeletions(me, board, pon, true, serialOk) else [])
    {
      ghost var before := redis.Now();
      IssuesNothing(redis.defaultOlt, me, before);
      if PortOf(board, pon).None? || !infoOk {
        return false;
      }
      DeleteLists(me, before, [], board, pon, infoOk, serialOk);
      assert [] + ListDeletions(me, board, pon, true, serialOk) == ListDeletions(me, board, pon, true, serialOk);
      ok := true;
    }

    /** Deletes the ONU's detail and the port's list and serial list, each of them if Redis does. */
    method InvalidateONUCache(ghost me: nat, board: int, pon: int, onu: int, detailOk: bool, infoOk: bool, serialOk: bool)
      requires Valid()
      modifies redis
      ensures Valid()
      ensures Issued(me, old(redis.Now()), Deletion(me, Slot(board, pon, OnuDetail(onu)), detailOk)
                                       + ListDeletions(me, board, pon, infoOk, serialOk))
    {
      ghost var before := redis.Now();
      IssuesNothing(redis.defaultOlt, me, before);
      DeleteDetail(me, before, board, pon, onu, detailOk);
      DeleteLists(me, before, Deletion(me, Slot(board, pon, OnuDetail(onu)), detailOk), board, pon, infoOk, serialOk);
    }

    method DeleteDetail(ghost me: nat, ghost before: Store, board: int, pon: int, onu: int, ok: bool)
      requires Valid() && Issued(me, before, [])
      modifies redis
      ensures Valid() && Issued(me, before, Deletion(me, Slot(board, pon, OnuDetail(onu)), ok))
    {
      var detailKey := CacheKey(oltId, GenerateONUDetailRedisKey(board, pon, onu));
      DeleteFirst(me, before, detailKey, Slot(board, pon, OnuDetail(onu)), ok);
    }

    // ----- the pre-warm

    /** What one fetch did: it started from this store and issued these commands. */
    ghost predicate VisitDone(me: nat, v: Visit, device: Device, readable: bool, writable: bool) {
      match v.fetch
      case ListFetch(k) => exists r ::
        && ListAnswer(v.start, k.boardId, k.ponId, device, readable, r)
        && v.commands == ListCommands(me, v.start, k.boardId, k.ponId, readable, writable, r)
      case SerialFetch(k) => exists r ::
        && SerialAnswer(v.start, k.boardId, k.ponId, device, false, readable, r)
        && v.commands == SerialCommands(me, v.start, k.boardId, k.ponId, false, readable, writable, r)
    }

    /** The n-th visit was made with the device's n-th answers. */
    ghost function Visiting(me: nat, device: nat -> Device, readable: nat -> bool, writable: nat -> bool): (nat, Visit) -> bool {
      (n: nat, v: Visit) => VisitDone(me, v, device(n), readable(n), writable(n))
    }

    /** Reads the list and the serial numbers of every configured port, as the body of a tracked
        worker. cancelled tells whether the worker's context is done after a number of fetches. */
    method PreWarmCache(ghost me: nat, device: nat -> Device, cancelled: nat -> bool, readable: nat -> bool,
                        writable: nat -> bool)
      returns (fetches: seq<PreWarmFetch>, ghost visits: seq<Visit>)
      requires Valid()
      modifies redis
      ensures Valid() && PreWarmed(ports.Keys, fetches)
      ensures |visits| == |fetches| && forall n :: 0 <= n < |visits| ==>
        visits[n].fetch == fetches[n] && VisitDone(me, visits[n], device(n), readable(n), writable(n))
      ensures Linked(redis.defaultOlt, me, old(redis.Now()), visits, redis.Now())
      ensures Issued(me, old(redis.Now()), AllCommands(visits))
      ensures forall i :: 0 <= i < |fetches| ==> !cancelled(i)
      ensures |fetches| == 2 * |ports.Keys| || cancelled(|fetches|)
    {
      ghost var before, done := redis.Now(), Visiting(me, device, readable, writable);
      fetches, visits := PreWarmPorts(me, before, device, cancelled, readable, writable, done);
      LinkedIssues(redis.defaultOlt, me, before, visits, redis.Now());
      assert forall n :: 0 <= n < |visits| ==> done(n, visits[n]);
    }

    method PreWarmPorts(ghost me: nat, ghost before: Store, device: nat -> Device, cancelled: nat -> bool,
                        readable: nat -> bool, writable: nat -> bool, ghost done: (nat, Visit) -> bool)
      returns (fetches: seq<PreWarmFetch>, ghost visits: seq<Visit>)
      requires Valid() && before == redis.Now() && done == Visiting(me, device, readable, writable)
      modifies redis
      ensures Valid() && Ended(ports.Keys, fetches, cancelled) && Matches(done, fetches, visits)
      ensures Linked(redis.defaultOlt, me, before, visits, redis.Now())
    {
      fetches, visits := [], [];
      ReachesItself(RedisStore.Acts(redis.defaultOlt), NotOf(me), before);
      var rest := ports.Keys;
      NothingWarmed(ports.Keys, cancelled);
      while rest != {}
        invariant Valid() && Progress(ports.Keys, rest, fetches, cancelled) && Matches(done, fetches, visits)
        invariant Linked(redis.defaultOlt, me, before, visits, redis.Now())
        decreases |rest|
      {
        var k :| k in rest;
        var soFar := fetches;
        fetches, visits := PreWarmPort(me, before, k, soFar, visits, device, cancelled, readable, writable, done);
        ProgressNext(ports.Keys, rest, soFar, k, fetches, cancelled);
        if |fetches| < |soFar| + 2 {
          return;
        }
        rest := rest - {k};
      }
      AllWarmed(ports.Keys, fetches, cancelled);
    }

    /** Fetches one port's list, then its serial numbers, unless cancelled before. */
    method PreWarmPort(ghost me: nat, ghost before: Store, k: BoardPonKey, soFar: seq<PreWarmFetch>, ghost visited: seq<Visit>,
                       device: nat -> Device, cancelled: nat -> bool, readable: nat -> bool, writable: nat -> bool,
                       ghost done: (nat, Visit) -> bool)
      returns (fetches: seq<PreWarmFetch>, ghost visits: seq<Visit>)
      requires Valid() && Matches(done, soFar, visited) && done == Visiting(me, device, readable, writable)
      requires Linked(redis.defaultOlt, me, before, visited, redis.Now())
      modifies redis
      ensures Valid() && Matches(done, fetches, visits)
      ensures Linked(redis.defaultOlt, me, before, visits, redis.Now())
      ensures fetches == soFar + PortFetches(k, cancelled(|soFar|), cancelled(|soFar| + 1))
    {
      fetches, visits := soFar, visited;
      var n := |soFar|;
      if cancelled(n) {
        return;
      }
      fetches, visits := Warm(me, before, ListFetch(k), fetches, visits, device, readable, writable, done);
      if cancelled(n + 1) {
        return;
      }
      fetches, visits := Warm(me, before, SerialFetch(k), fetches, visits, device, readable, writable, done);
    }

    method Warm(ghost me: nat, ghost before: Store, fetch: PreWarmFetch, soFar: seq<PreWarmFetch>, ghost visited: seq<Visit>,
                device: nat -> Device, readable: nat -> bool, writable: nat -> bool, ghost done: (nat, Visit) -> bool)
      returns (fetches: seq<PreWarmFetch>, ghost visits: seq<Visit>)
      requires Valid() && Matches(done, soFar, visited) && done == Visiting(me, device, readable, writable)
      requires Linked(redis.defaultOlt, me, before, visited, redis.Now())
      modifies redis
      ensures Valid() && Matches(done, fetches, visits)
      ensures Linked(redis.defaultOlt, me, before, visits, redis.Now())
      ensures fetches == soFar + [fetch]
    {
      ghost var v: Visit;
      if fetch.ListFetch? {
        v := WarmList(me, before, visited, fetch.port, |soFar|, device, readable, writable, done);
      } else {
        v := WarmSerials(me, before, visited, fetch.port, |soFar|, device, readable, writable, done);
      }
      fetches, visits := MatchesNext(done, soFar, visited, fetch, v);
    }

    method WarmList(ghost me: nat, ghost before: Store, ghost visits: seq<Visit>, k: BoardPonKey, n: nat,
                    device: nat -> Device, readable: nat -> bool, writable: nat -> bool, ghost done: (nat, Visit) -> bool)
      returns (ghost v: Visit)
      requires Valid() && Linked(redis.defaultOlt, me, before, visits, redis.Now())
      requires done == Visiting(me, device, readable, writable)
      modifies redis
      ensures Valid() && Linked(redis.defaultOlt, me, before, visits + [v], redis.Now())
      ensures v.fetch == ListFetch(k) && done(n, v)
    {
      ghost var mid := redis.Now();
      redis.Yield(me);
      LinkedWait(redis.defaultOlt, me, before, visits, mid, redis.Now());
      ghost var start := redis.Now();
      var list := GetByBoardIDAndPonID(me, k.boardId, k.ponId, device(n), readable(n), writable(n));
      v := Visit(ListFetch(k), start, ListCommands(me, start, k.boardId, k.ponId, readable(n), writable(n), list));
      LinkedNext(redis.defaultOlt, me, before, visits, v, redis.Now());
      assert VisitDone(me, v, device(n), readable(n), writable(n));
    }

    method WarmSerials(ghost me: nat, ghost before: Store, ghost visits: seq<Visit>, k: BoardPonKey, n: nat,
                       device: nat -> Device, readable: nat -> bool, writable: nat -> bool, ghost done: (nat, Visit) -> bool)
      returns (ghost v: Visit)
      requires Valid() && Linked(redis.defaultOlt, me, before, visits, redis.Now())
      requires done == Visiting(me, device, readable, writable)
      modifies redis
      ensures Valid() && Linked(redis.defaultOlt, me, before, visits + [v], redis.Now())
      ensures v.fetch == SerialFetch(k) && done(n, v)
    {
      ghost var mid := redis.Now();
      redis.Yield(me);
      LinkedWait(redis.defaultOlt, me, before, visits, mid, redis.Now());
      ghost var start := redis.Now();
      var serials := GetOnuIDAndSerialNumber(me, k.boardId, k.ponId, device(n), false, readable(n), writable(n));
      v := Visit(SerialFetch(k), start,
                 SerialCommands(me, start, k.boardId, k.ponId, false, readable(n), writable(n), serials));
      LinkedNext(redis.defaultOlt, me, before, visits, v, redis.Now());
      assert VisitDone(me, v, device(n), readable(n), writable(n));
    }
  }
}

/** The ONU list of a PON port, built from an SNMP walk through an unordered map, and its
    complement, the ids that are still free. */
module OnuList {
  import opened Text
  import opened Sorting
  import opened Oids

  // ----- reading SNMP answers

  /** The value of a variable; a byte string counts as text. */
  datatype Value = TextValue(text: string) | Number(n: int) | Other

  /** One variable of a walk. */
  datatype Pdu = Pdu(name: string, value: Value)

  datatype OnuInfo = OnuInfo(
    board: int, pon: int, id: int, name: string,
    onuType: string, serialNumber: string, rxPower: string, status: string)

  function LastPart(oid: string): string {
    var parts := Split(oid, '.');
    parts[|parts| - 1]
  }

  /** The ONU id as text, the key of the walk's map. */
  function ExtractONUID(oid: string): string {
    if Atoi(LastPart(oid)).Some? then LastPart(oid) else ""
  }

  /** The ONU id as a number. */
  function ExtractIDOnuID(oid: string): int {
    AtoiOr(LastPart(oid), 0)
  }

  function ExtractName(v: Value): string {
    if v.TextValue? then v.text else "Unknown"
  }

  function ExtractSerialNumber(v: Value): string {
    if v.TextValue? then TrimPrefix(v.text, "1,") else ""
  }

  function ExtractAndGetStatus(v: Value): string {
    if !v.Number? then "Unknown"
    else if v.n == 1 then "Logging"
    else if v.n == 2 then "LOS"
    else if v.n == 3 then "Synchronization"
    else if v.n == 4 then "Online"
    else if v.n == 5 then "Dying Gasp"
    else if v.n == 6 then "Auth Failed"
    else if v.n == 7 then "Offline"
    else "Unknown"
  }

  /** A port of an OLT as the list code sees it; showPower is the floating-point conversion of a raw RX power. */
  datatype Port = Port(board: int, pon: int, baseOid1: string, baseOid2: string, oids: BoardPonConfig,
                       showPower: int -> string)

  /** What the device answers to a Get of several OIDs; None is an error. */
  type Answers = seq<string> -> Option<seq<Value>>

  function BatchOids(p: Port, id: int): seq<string> {
    [p.baseOid2 + p.oids.typeOid + "." + Itoa(id),
     p.baseOid1 + p.oids.serialOid + "." + Itoa(id),
     p.baseOid1 + p.oids.rxPowerOid + "." + Itoa(id) + ".1",
     p.baseOid1 + p.oids.statusOid + "." + Itoa(id)]
  }

  /** The record of one walked ONU; the four details stay empty when their Get fails or comes back short. */
  function Record(p: Port, answers: Answers, pdu: Pdu): OnuInfo {
    var id := ExtractIDOnuID(pdu.name);
    var bare := OnuInfo(p.board, p.pon, id, ExtractName(pdu.value), "", "", "", "");
    match answers(BatchOids(p, id))
    case None => bare
    case Some(vs) =>
      if |vs| < 4 then bare
      else bare.(onuType := ExtractName(vs[0]), serialNumber := ExtractSerialNumber(vs[1]),
                 rxPower := if vs[2].Number? then p.showPower(vs[2].n) else "",
                 status := ExtractAndGetStatus(vs[3]))
  }

  // ----- the walk's map

  /** The walked variable is the last one of its ONU. */
  ghost predicate LastOf(walk: seq<Pdu>, i: int) {
    && 0 <= i < |walk|
    && forall j :: i < j < |walk| ==> ExtractONUID(walk[j].name) != ExtractONUID(walk[i].name)
  }

  /** Every ONU of the walk under its id text, with its last variable. */
  ghost predicate IndexesWalk(walk: seq<Pdu>, m: map<string, Pdu>) {
    && (forall i :: 0 <= i < |walk| ==> ExtractONUID(walk[i].name) in m)
    && (forall k :: k in m ==> exists i :: LastOf(walk, i) && walk[i] == m[k] && ExtractONUID(walk[i].name) == k)
  }

  method IndexWalk(walk: seq<Pdu>) returns (m: map<string, Pdu>)
    ensures IndexesWalk(walk, m)
  {
    m := map[];
    for n := 0 to |walk|
      invariant IndexesWalk(walk[..n], m)
    {
      ghost var before := m;
      m := m[ExtractONUID(walk[n].name) := walk[n]];
      IndexNext(walk[..n], before, walk[n]);
      assert walk[..n + 1] == walk[..n] + [walk[n]];
    }
    assert walk[..|walk|] == walk;
  }

  lemma IndexNext(walk: seq<Pdu>, m: map<string, Pdu>, pdu: Pdu)
    requires IndexesWalk(walk, m)
    ensures IndexesWalk(walk + [pdu], m[ExtractONUID(pdu.name) := pdu])
  {
    var all, key := walk + [pdu], ExtractONUID(pdu.name);
    var m' := m[key := pdu];
    forall k | k in m' ensures exists i :: LastOf(all, i) && all[i] == m'[k] && ExtractONUID(all[i].name) == k {
      if k == key {
        assert LastOf(all, |walk|);
      } else {
        var i :| LastOf(walk, i) && walk[i] == m[k] && ExtractONUID(walk[i].name) == k;
        assert all[i] == walk[i] && LastOf(all, i);
      }
    }
  }

  lemma IndexUnique(walk: seq<Pdu>, m: map<string, Pdu>, m': map<string, Pdu>)
    requires IndexesWalk(walk, m) && IndexesWalk(walk, m')
    ensures m == m'
  {
    forall k ensures (k in m <==> k in m') && (k in m ==> m[k] == m'[k]) {
      if k in m {
        var i :| LastOf(walk, i) && walk[i] == m[k] && ExtractONUID(walk[i].name) == k;
        var j :| LastOf(walk, j) && walk[j] == m'[k] && ExtractONUID(walk[j].name) == k;
        assert i == j;
      }
      if k in m' {
        var j :| LastOf(walk, j) && walk[j] == m'[k] && ExtractONUID(walk[j].name) == k;
      }
    }
  }

  // ----- the list

  function ById(): (OnuInfo, OnuInfo) -> bool { (a: OnuInfo, b: OnuInfo) => a.id <= b.id }

  ghost predicate Distinct<T(!new)>(s: seq<T>) {
    forall i, j :: 0 <= i < j < |s| ==> s[i] != s[j]
  }

  /** The keys of the map, each once, in some order. */
  ghost predicate Enumerates(keys: seq<string>, ks: set<string>) {
    Distinct(keys) && forall k :: k in keys <==> k in ks
  }

  /** How a walked ONU becomes a record, given the device's answers. */
  function Recorder(p: Port, answers: Answers): Pdu -> OnuInfo { (pdu: Pdu) => Record(p, answers, pdu) }

  /** The recorder keeps the id of the walked name. */
  ghost predicate KeepsId(record: Pdu -> OnuInfo) {
    forall pdu :: record(pdu).id == ExtractIDOnuID(pdu.name)
  }

  lemma RecorderKeepsId(p: Port, answers: Answers)
    ensures KeepsId(Recorder(p, answers))
  {
  }

  function Records(record: Pdu -> OnuInfo, m: map<string, Pdu>, keys: seq<string>): (r: seq<OnuInfo>)
    requires forall k :: k in keys ==> k in m
    ensures |r| == |keys| && forall i :: 0 <= i < |r| ==> r[i] == record(m[keys[i]])
  {
    seq(|keys|, i requires 0 <= i < |keys| => record(m[keys[i]]))
  }

  /** The lists the code may produce: one record per key, ordered by id. Neither the map's
      iteration order nor the sort's treatment of equal ids is fixed. */
  ghost predicate IsOnuList(record: Pdu -> OnuInfo, walk: seq<Pdu>, list: seq<OnuInfo>) {
    exists m, keys :: ListedAs(record, walk, m, keys, list)
  }

  ghost predicate ListedAs(record: Pdu -> OnuInfo, walk: seq<Pdu>, m: map<string, Pdu>, keys: seq<string>,
                           list: seq<OnuInfo>) {
    && IndexesWalk(walk, m) && Enumerates(keys, m.Keys)
    && Sorted(ById(), list) && multiset(list) == multiset(Records(record, m, keys))
  }

  /** The list as both the foreground read and the background refresh build it. */
  method BuildList(record: Pdu -> OnuInfo, walk: seq<Pdu>) returns (list: seq<OnuInfo>)
    ensures IsOnuList(record, walk, list)
  {
    var m := IndexWalk(walk);
    ghost var keys: seq<string>;
    list, keys := RecordAll(record, m);
    list := Sort(ById(), list);
    assert ListedAs(record, walk, m, keys, list);
  }

  /** A record per entry of the map, in the order the range loop happens to visit them. */
  method RecordAll(record: Pdu -> OnuInfo, m: map<string, Pdu>) returns (list: seq<OnuInfo>, ghost keys: seq<string>)
    ensures Enumerates(keys, m.Keys) && list == Records(record, m, keys)
  {
    list, keys := [], [];
    var rest := m.Keys;
    ghost var done: set<string> := {};
    while rest != {}
      invariant m.Keys == done + rest && done !! rest
      invariant Enumerates(keys, done)
      invariant list == Records(record, m, keys)
      decreases |rest|
    {
      var k :| k in rest;
      EnumerateNext(keys, done, k);
      RecordsNext(record, m, keys, k);
      list := list + [record(m[k])];
      keys, done := keys + [k], done + {k};
      rest := rest - {k};
    }
  }

  lemma RecordsNext(record: Pdu -> OnuInfo, m: map<string, Pdu>, keys: seq<string>, k: string)
    requires (forall x :: x in keys ==> x in m) && k in m
    ensures forall x :: x in keys + [k] ==> x in m
    ensures Records(record, m, keys + [k]) == Records(record, m, keys) + [record(m[k])]
  {
  }

  lemma EnumerateNext(keys: seq<string>, ks: set<string>, k: string)
    requires Enumerates(keys, ks) && k !in ks
    ensures Enumerates(keys + [k], ks + {k})
  {
    forall x ensures x in keys + [k] <==> x in ks + {k} {
    }
  }

  /** No two different id texts of the walk denote the same number. */
  ghost predicate Unambiguous(walk: seq<Pdu>) {
    forall i, j :: 0 <= i < |walk| && 0 <= j < |walk| && ExtractIDOnuID(walk[i].name) == ExtractIDOnuID(walk[j].name) ==>
      ExtractONUID(walk[i].name) == ExtractONUID(walk[j].name)
  }

  ghost predicate Ascending(list: seq<OnuInfo>) {
    forall i, j :: 0 <= i < j < |list| ==> list[i].id < list[j].id
  }

  /** Same id text, same number. */
  lemma TextGivesNumber(oid: string, oid': string)
    requires ExtractONUID(oid) == ExtractONUID(oid')
    ensures ExtractIDOnuID(oid) == ExtractIDOnuID(oid')
  {
    assert Atoi("").None?;
  }

  lemma KeyOfEntry(walk: seq<Pdu>, m: map<string, Pdu>, k: string)
    requires IndexesWalk(walk, m) && k in m
    ensures m[k] in walk && ExtractONUID(m[k].name) == k
  {
  }

  /** The list is strictly ascending, with one record per number, exactly for unambiguous walks. */
  lemma AscendingExactly(record: Pdu -> OnuInfo, walk: seq<Pdu>, list: seq<OnuInfo>)
    requires KeepsId(record) && IsOnuList(record, walk, list)
    ensures Ascending(list) <==> Unambiguous(walk)
  {
    var m: map<string, Pdu>, keys: seq<string> :| ListedAs(record, walk, m, keys, list);
    var records := Records(record, m, keys);
    if Unambiguous(walk) {
      UnambiguousApart(record, walk, m, keys);
      SameIdsApart(records, list);
    } else {
      var i, j := AmbiguousClash(record, walk, m, keys);
      if Ascending(list) {
        AscendingIdsApart(list, records, i, j);
      }
    }
  }

  lemma UnambiguousApart(record: Pdu -> OnuInfo, walk: seq<Pdu>, m: map<string, Pdu>, keys: seq<string>)
    requires KeepsId(record) && IndexesWalk(walk, m) && Enumerates(keys, m.Keys) && Unambiguous(walk)
    ensures var records := Records(record, m, keys);
      forall i, j :: 0 <= i < j < |records| ==> records[i].id != records[j].id
  {
    var records := Records(record, m, keys);
    forall i, j | 0 <= i < j < |records| ensures records[i].id != records[j].id {
      KeyOfEntry(walk, m, keys[i]);
      KeyOfEntry(walk, m, keys[j]);
    }
  }

  lemma AmbiguousClash(record: Pdu -> OnuInfo, walk: seq<Pdu>, m: map<string, Pdu>, keys: seq<string>) returns (x: int, y: int)
    requires KeepsId(record) && IndexesWalk(walk, m) && Enumerates(keys, m.Keys) && !Unambiguous(walk)
    ensures 0 <= x < |keys| && 0 <= y < |keys| && x != y
    ensures var records := Records(record, m, keys); records[x].id == records[y].id
  {
    var i, j :| 0 <= i < |walk| && 0 <= j < |walk| && ExtractIDOnuID(walk[i].name) == ExtractIDOnuID(walk[j].name)
      && ExtractONUID(walk[i].name) != ExtractONUID(walk[j].name);
    var a, b := ExtractONUID(walk[i].name), ExtractONUID(walk[j].name);
    KeyOfEntry(walk, m, a);
    KeyOfEntry(walk, m, b);
    TextGivesNumber(m[a].name, walk[i].name);
    TextGivesNumber(m[b].name, walk[j].name);
    x :| 0 <= x < |keys| && keys[x] == a;
    y :| 0 <= y < |keys| && keys[y] == b;
  }

  /** A sorted permutation of records with pairwise different ids is strictly ascending. */
  lemma SameIdsApart(records: seq<OnuInfo>, list: seq<OnuInfo>)
    requires multiset(list) == multiset(records) && Sorted(ById(), list)
    requires forall i, j :: 0 <= i < j < |records| ==> records[i].id != records[j].id
    ensures Ascending(list)
  {
    forall i, j | 0 <= i < j < |list| ensures list[i].id < list[j].id {
      assert ById()(list[i], list[j]);
      if list[i].id == list[j].id {
        TwoOfThem(list, records, i, j);
      }
    }
  }

  lemma SomewhereIn(a: seq<OnuInfo>, b: seq<OnuInfo>, i: nat) returns (k: nat)
    requires multiset(a) == multiset(b) && i < |a|
    ensures k < |b| && b[k] == a[i]
  {
    assert a[i] in multiset(b);
    k :| 0 <= k < |b| && b[k] == a[i];
  }

  /** Permutations have equally many records of an id. */
  lemma TwoOfThem(a: seq<OnuInfo>, b: seq<OnuInfo>, i: int, j: int)
    requires multiset(a) == multiset(b) && 0 <= i < j < |a| && a[i].id == a[j].id
    ensures exists x, y :: 0 <= x < y < |b| && b[x].id == b[y].id
  {
    if a[i] == a[j] {
      TwoEqual(a, b, i, j);
    } else {
      var x := SomewhereIn(a, b, i);
      var y := SomewhereIn(a, b, j);
      assert if x < y then b[x].id == b[y].id else b[y].id == b[x].id;
    }
  }

  lemma TwoEqual(a: seq<OnuInfo>, b: seq<OnuInfo>, i: int, j: int)
    requires multiset(a) == multiset(b) && 0 <= i < j < |a| && a[i] == a[j]
    ensures exists x, y :: 0 <= x < y < |b| && b[x].id == b[y].id
  {
    var x := SomewhereIn(a, b, i);
    var rest, rest' := a[..i] + a[i + 1..], b[..x] + b[x + 1..];
    RemovedFromBoth(a, b, i, x);
    assert rest[j - 1] == a[j];
    var z := SomewhereIn(rest, rest', j - 1);
    var y := if z < x then z else z + 1;
    assert if x < y then b[x].id == b[y].id else b[y].id == b[x].id;
  }

  lemma RemovedFromBoth(a: seq<OnuInfo>, b: seq<OnuInfo>, i: nat, x: nat)
    requires multiset(a) == multiset(b) && i < |a| && x < |b| && a[i] == b[x]
    ensures multiset(a[..i] + a[i + 1..]) == multiset(b[..x] + b[x + 1..])
  {
    SplitAt(a, i);
    SplitAt(b, x);
    assert multiset(a[..i] + a[i + 1..]) == multiset(a) - multiset{a[i]};
    assert multiset(b[..x] + b[x + 1..]) == multiset(b) - multiset{b[x]};
  }

  lemma SplitAt(s: seq<OnuInfo>, i: nat)
    requires i < |s|
    ensures multiset(s) == multiset(s[..i] + s[i + 1..]) + multiset{s[i]}
  {
    assert s == s[..i] + [s[i]] + s[i + 1..];
  }

  lemma AscendingIdsApart(list: seq<OnuInfo>, records: seq<OnuInfo>, x: int, y: int)
    requires multiset(list) == multiset(records) && Ascending(list)
    requires 0 <= x < |records| && 0 <= y < |records| && x != y
    ensures records[x].id != records[y].id
  {
    if records[x].id == records[y].id {
      TwoOfThem(records, list, if x < y then x else y, if x < y then y else x);
    }
  }

  // ----- what is in the list

  /** The walked variable is the last one with its number. */
  ghost predicate LastWithId(walk: seq<Pdu>, i: int) {
    && 0 <= i < |walk|
    && forall j :: i < j < |walk| ==> ExtractIDOnuID(walk[j].name) != ExtractIDOnuID(walk[i].name)
  }

  ghost predicate Walked(walk: seq<Pdu>, id: int) {
    exists i :: 0 <= i < |walk| && ExtractIDOnuID(walk[i].name) == id
  }

  ghost predicate Listed(list: seq<OnuInfo>, id: int) {
    exists i :: 0 <= i < |list| && list[i].id == id
  }

  /** The list has the walked ids and no others, whatever the walk. */
  lemma ListedAreWalked(record: Pdu -> OnuInfo, walk: seq<Pdu>, list: seq<OnuInfo>, id: int)
    requires KeepsId(record) && IsOnuList(record, walk, list)
    ensures Listed(list, id) <==> Walked(walk, id)
  {
    if Listed(list, id) {
      var i :| 0 <= i < |list| && list[i].id == id;
      RecordedFromLast(record, walk, list, i);
    }
    if Walked(walk, id) {
      var i :| 0 <= i < |walk| && ExtractIDOnuID(walk[i].name) == id;
      var j := LastExists(walk, i);
      TextGivesNumber(walk[j].name, walk[i].name);
      var x := LastIsListed(record, walk, list, j);
    }
  }

  lemma {:induction false} LastExists(walk: seq<Pdu>, i: nat) returns (j: nat)
    requires i < |walk|
    ensures LastOf(walk, j) && ExtractONUID(walk[j].name) == ExtractONUID(walk[i].name)
    decreases |walk| - i
  {
    j := i;
    if !LastOf(walk, i) {
      var k :| i < k < |walk| && ExtractONUID(walk[k].name) == ExtractONUID(walk[i].name);
      j := LastExists(walk, k);
    }
  }

  /** Every record comes from the last variable of its id text; for an unambiguous walk, of its number. */
  lemma RecordedFromLast(record: Pdu -> OnuInfo, walk: seq<Pdu>, list: seq<OnuInfo>, i: nat)
    requires IsOnuList(record, walk, list) && i < |list|
    ensures exists j :: LastOf(walk, j) && list[i] == record(walk[j]) && (Unambiguous(walk) ==> LastWithId(walk, j))
  {
    var m: map<string, Pdu>, keys: seq<string> :| ListedAs(record, walk, m, keys, list);
    var k := SomewhereIn(list, Records(record, m, keys), i);
    var j := EntryIsLast(walk, m, keys[k]);
    if Unambiguous(walk) {
      LastOfUnambiguous(walk, j);
    }
  }

  lemma EntryIsLast(walk: seq<Pdu>, m: map<string, Pdu>, k: string) returns (j: nat)
    requires IndexesWalk(walk, m) && k in m
    ensures LastOf(walk, j) && walk[j] == m[k] && ExtractONUID(walk[j].name) == k
  {
    j :| LastOf(walk, j) && walk[j] == m[k] && ExtractONUID(walk[j].name) == k;
  }

  lemma LastOfUnambiguous(walk: seq<Pdu>, i: int)
    requires Unambiguous(walk) && LastOf(walk, i)
    ensures LastWithId(walk, i)
  {
  }

  // ----- when the list does not depend on the map's order

  /** Different id texts of the same number come with the same record. */
  ghost predicate TiesAgree(record: Pdu -> OnuInfo, walk: seq<Pdu>) {
    forall i, j :: LastOf(walk, i) && LastOf(walk, j) && ExtractIDOnuID(walk[i].name) == ExtractIDOnuID(walk[j].name) ==>
      record(walk[i]) == record(walk[j])
  }

  lemma {:induction false} RecordsPermute(record: Pdu -> OnuInfo, m: map<string, Pdu>, keys: seq<string>, keys': seq<string>,
                                          ks: set<string>)
    requires ks <= m.Keys && Enumerates(keys, ks) && Enumerates(keys', ks)
    ensures multiset(Records(record, m, keys)) == multiset(Records(record, m, keys'))
    decreases |keys|
  {
    if keys == [] {
      EnumeratesNothing(keys', ks);
    } else {
      assert keys[0] in keys;
      var x := PositionOf(keys[0], keys', ks);
      RecordsWithout(record, m, keys, 0);
      RecordsWithout(record, m, keys', x);
      Without(keys, 0, ks);
      Without(keys', x, ks);
      RecordsPermute(record, m, Drop(keys, 0), Drop(keys', x), ks - {keys[0]});
    }
  }

  function Drop(keys: seq<string>, x: nat): (r: seq<string>)
    requires x < |keys|
    ensures |r| == |keys| - 1
  {
    keys[..x] + keys[x + 1..]
  }

  lemma HeadIsIn(keys: seq<string>)
    ensures keys == [] || keys[0] in keys
  {
  }

  lemma EnumeratesNothing(keys: seq<string>, ks: set<string>)
    requires Enumerates(keys, ks) && Enumerates([], ks)
    ensures keys == []
  {
    assert forall k :: k in keys ==> k in ks && k in [];
    HeadIsIn(keys);
  }

  lemma PositionOf(k: string, keys: seq<string>, ks: set<string>) returns (x: nat)
    requires Enumerates(keys, ks) && k in ks
    ensures x < |keys| && keys[x] == k
  {
    assert k in keys;
    x :| 0 <= x < |keys| && keys[x] == k;
  }

  lemma Without(keys: seq<string>, x: nat, ks: set<string>)
    requires Enumerates(keys, ks) && x < |keys|
    ensures Enumerates(Drop(keys, x), ks - {keys[x]})
  {
    var rest := Drop(keys, x);
    forall k ensures k in rest <==> k in ks - {keys[x]} {
      if k in ks - {keys[x]} {
        var y :| 0 <= y < |keys| && keys[y] == k;
        assert rest[if y < x then y else y - 1] == k;
      }
    }
  }

  lemma RecordsWithout(record: Pdu -> OnuInfo, m: map<string, Pdu>, keys: seq<string>, x: nat)
    requires (forall k :: k in keys ==> k in m) && x < |keys|
    ensures forall k :: k in Drop(keys, x) ==> k in m
    ensures multiset(Records(record, m, keys)) == multiset(Records(record, m, Drop(keys, x))) + multiset{record(m[keys[x]])}
  {
    var all, rest := Records(record, m, keys), Records(record, m, Drop(keys, x));
    assert rest == all[..x] + all[x + 1..];
    SplitAt(all, x);
  }

  lemma SamePermutation(record: Pdu -> OnuInfo, walk: seq<Pdu>, list: seq<OnuInfo>, other: seq<OnuInfo>)
    requires IsOnuList(record, walk, list) && IsOnuList(record, walk, other)
    ensures multiset(list) == multiset(other)
  {
    var m: map<string, Pdu>, keys: seq<string> :| ListedAs(record, walk, m, keys, list);
    var m': map<string, Pdu>, keys': seq<string> :| ListedAs(record, walk, m', keys', other);
    IndexUnique(walk, m, m');
    RecordsPermute(record, m, keys, keys', m.Keys);
  }

  lemma OnlyList(record: Pdu -> OnuInfo, walk: seq<Pdu>, list: seq<OnuInfo>, other: seq<OnuInfo>)
    requires KeepsId(record) && IsOnuList(record, walk, list) && IsOnuList(record, walk, other) && TiesAgree(record, walk)
    ensures other == list
  {
    SamePermutation(record, walk, list, other);
    forall x, y | x in list && y in list && ById()(x, y) && ById()(y, x) ensures x == y {
      var i :| 0 <= i < |list| && list[i] == x;
      var j :| 0 <= j < |list| && list[j] == y;
      RecordedFromLast(record, walk, list, i);
      RecordedFromLast(record, walk, list, j);
    }
    assert forall x: OnuInfo :: ById()(x, x);
    SortedUnique(ById(), list, other);
  }

  lemma Tied(record: Pdu -> OnuInfo, walk: seq<Pdu>, list: seq<OnuInfo>) returns (x: nat, y: nat)
    requires KeepsId(record) && IsOnuList(record, walk, list) && !TiesAgree(record, walk)
    ensures x < |list| && y < |list| && list[x].id == list[y].id && list[x] != list[y]
  {
    var i, j :| LastOf(walk, i) && LastOf(walk, j) && ExtractIDOnuID(walk[i].name) == ExtractIDOnuID(walk[j].name)
      && record(walk[i]) != record(walk[j]);
    x := LastIsListed(record, walk, list, i);
    y := LastIsListed(record, walk, list, j);
  }

  lemma LastIsListed(record: Pdu -> OnuInfo, walk: seq<Pdu>, list: seq<OnuInfo>, i: nat) returns (x: nat)
    requires IsOnuList(record, walk, list) && LastOf(walk, i)
    ensures x < |list| && list[x] == record(walk[i])
  {
    var m: map<string, Pdu>, keys: seq<string> :| ListedAs(record, walk, m, keys, list);
    var key := ExtractONUID(walk[i].name);
    var j :| LastOf(walk, j) && walk[j] == m[key] && ExtractONUID(walk[j].name) == key;
    assert i == j;
    var k :| 0 <= k < |keys| && keys[k] == key;
    var records := Records(record, m, keys);
    assert records[k] in multiset(list);
    x :| 0 <= x < |list| && list[x] == record(walk[i]);
  }

  function Swap(list: seq<OnuInfo>, x: nat, y: nat): seq<OnuInfo>
    requires x < |list| && y < |list|
  {
    list[x := list[y]][y := list[x]]
  }

  lemma SwapSorted(list: seq<OnuInfo>, x: nat, y: nat)
    requires x < |list| && y < |list| && list[x].id == list[y].id && Sorted(ById(), list)
    ensures Sorted(ById(), Swap(list, x, y)) && multiset(Swap(list, x, y)) == multiset(list)
  {
    var other := Swap(list, x, y);
    assert forall i :: 0 <= i < |list| ==> other[i].id == list[i].id;
    forall i, j | 0 <= i < j < |other| ensures ById()(other[i], other[j]) {
      assert ById()(list[i], list[j]);
    }
  }

  /** Swapping two records with the same id gives another possible list. */
  lemma Swapped(record: Pdu -> OnuInfo, walk: seq<Pdu>, list: seq<OnuInfo>, x: nat, y: nat)
    requires IsOnuList(record, walk, list) && x < |list| && y < |list| && list[x].id == list[y].id
    ensures IsOnuList(record, walk, Swap(list, x, y))
  {
    var m: map<string, Pdu>, keys: seq<string> :| ListedAs(record, walk, m, keys, list);
    SwapSorted(list, x, y);
    assert ListedAs(record, walk, m, keys, Swap(list, x, y));
  }

  /** The list is independent of the map's iteration order and of the sort's choices exactly when
      different id texts of one number, if any, come with the same record. */
  lemma DeterminedExactly(record: Pdu -> OnuInfo, walk: seq<Pdu>, list: seq<OnuInfo>)
    requires KeepsId(record) && IsOnuList(record, walk, list)
    ensures (forall other :: IsOnuList(record, walk, other) ==> other == list) <==> TiesAgree(record, walk)
  {
    if TiesAgree(record, walk) {
      forall other | IsOnuList(record, walk, other) ensures other == list {
        OnlyList(record, walk, list, other);
      }
    } else {
      var x, y := Tied(record, walk, list);
      Swapped(record, walk, list, x, y);
      assert Swap(list, x, y)[x] != list[x];
    }
  }

  /** An unambiguous walk has no ties at all. */
  lemma UnambiguousTiesAgree(record: Pdu -> OnuInfo, walk: seq<Pdu>)
    requires Unambiguous(walk)
    ensures TiesAgree(record, walk)
  {
    forall i, j | LastOf(walk, i) && LastOf(walk, j) && ExtractIDOnuID(walk[i].name) == ExtractIDOnuID(walk[j].name)
      ensures record(walk[i]) == record(walk[j])
    {
      assert i == j;
    }
  }

  // ----- canonical names

  /** The name ends in the decimal text of a 64-bit number. */
  ghost predicate Canonical(oid: string) {
    exists prefix, n :: IsInt64(n) && IsDotted(oid, prefix, n)
  }

  ghost predicate IsDotted(oid: string, prefix: string, n: int) {
    oid == Dotted(prefix, n)
  }

  lemma CanonicalId(prefix: string, n: int)
    requires IsInt64(n)
    ensures ExtractONUID(Dotted(prefix, n)) == Itoa(n) && ExtractIDOnuID(Dotted(prefix, n)) == n
  {
    LastPartOf(prefix, Itoa(n)) by {
      ItoaShape(n);
    }
    assert Dotted(prefix, n) == prefix + ['.'] + Itoa(n);
    ParseOfItoa(n);
  }

  lemma LastPartOf(prefix: string, last: string)
    requires Free(last, '.')
    ensures LastPart(prefix + ['.'] + last) == last
  {
    SplitConcat(prefix, last, '.');
    SplitFree(last, '.');
  }

  /** A walk whose names end in canonical decimals, as SNMP agents print them, is unambiguous. */
  lemma CanonicalIsUnambiguous(walk: seq<Pdu>)
    requires forall i :: 0 <= i < |walk| ==> Canonical(walk[i].name)
    ensures Unambiguous(walk)
  {
    forall i, j | 0 <= i < |walk| && 0 <= j < |walk| && ExtractIDOnuID(walk[i].name) == ExtractIDOnuID(walk[j].name)
      ensures ExtractONUID(walk[i].name) == ExtractONUID(walk[j].name)
    {
      var prefix, n :| IsInt64(n) && IsDotted(walk[i].name, prefix, n);
      var prefix', n' :| IsInt64(n') && IsDotted(walk[j].name, prefix', n');
      CanonicalId(prefix, n);
      CanonicalId(prefix', n');
    }
  }

  /** Without canonical decimals the promise fails: ".1" and ".01" are two keys of one number. An agent
      whose OIDs are printed from integers never gives the second one. */
  lemma LeadingZeroIsAmbiguous(x: Value, y: Value)
    ensures !Unambiguous([Pdu(".1", x), Pdu(".01", y)])
  {
    LeadingZeroTexts();
    TwoTexts(Pdu(".1", x), Pdu(".01", y));
  }

  /** That walk has two records under one number, and both orders of them are possible lists. */
  lemma LeadingZeroLists(record: Pdu -> OnuInfo, x: Value, y: Value)
    requires KeepsId(record)
    ensures var first, second := Pdu(".1", x), Pdu(".01", y);
      && IsOnuList(record, [first, second], [record(first), record(second)])
      && IsOnuList(record, [first, second], [record(second), record(first)])
  {
    LeadingZeroTexts();
    BothOrders(record, Pdu(".1", x), Pdu(".01", y));
  }

  lemma LeadingZeroTexts()
    ensures ExtractONUID(".1") != ExtractONUID(".01") && ExtractIDOnuID(".1") == ExtractIDOnuID(".01")
  {
    OneByText("1");
    OneByText("01");
    assert ['.'] + "1" == ".1" && ['.'] + "01" == ".01";
  }

  lemma TwoTexts(first: Pdu, second: Pdu)
    requires ExtractONUID(first.name) != ExtractONUID(second.name)
    requires ExtractIDOnuID(first.name) == ExtractIDOnuID(second.name)
    ensures !Unambiguous([first, second])
  {
    var walk := [first, second];
    assert walk[0] == first && walk[1] == second;
  }

  lemma BothOrders(record: Pdu -> OnuInfo, first: Pdu, second: Pdu)
    requires KeepsId(record)
    requires ExtractONUID(first.name) != ExtractONUID(second.name)
    requires ExtractIDOnuID(first.name) == ExtractIDOnuID(second.name)
    ensures IsOnuList(record, [first, second], [record(first), record(second)])
    ensures IsOnuList(record, [first, second], [record(second), record(first)])
  {
    var k, l := ExtractONUID(first.name), ExtractONUID(second.name);
    assert record(first).id == record(second).id;
    IndexesTwo(first, second, k, l);
    TwoOnus(record, first, second, k, l);
  }

  lemma TwoOnus(record: Pdu -> OnuInfo, first: Pdu, second: Pdu, k: string, l: string)
    requires IndexesWalk([first, second], map[k := first, l := second]) && k != l
    requires record(first).id == record(second).id
    ensures IsOnuList(record, [first, second], [record(first), record(second)])
    ensures IsOnuList(record, [first, second], [record(second), record(first)])
  {
    TwoKeys(k, first, l, second);
    ListedHere(record, [first, second], map[k := first, l := second], k, first, l, second);
    ListedHere(record, [first, second], map[k := first, l := second], l, second, k, first);
  }

  lemma TwoKeys(k: string, first: Pdu, l: string, second: Pdu)
    requires k != l
    ensures var m := map[k := first, l := second];
      m.Keys == {k, l} && m.Keys == {l, k} && m[k] == first && m[l] == second
  {
  }

  lemma ListedHere(record: Pdu -> OnuInfo, walk: seq<Pdu>, m: map<string, Pdu>, k: string, x: Pdu, l: string, y: Pdu)
    requires IndexesWalk(walk, m) && m.Keys == {k, l} && k != l && m[k] == x && m[l] == y
    requires record(x).id == record(y).id
    ensures IsOnuList(record, walk, [record(x), record(y)])
  {
    assert Enumerates([k, l], m.Keys);
    assert Records(record, m, [k, l]) == [record(x), record(y)];
    assert ListedAs(record, walk, m, [k, l], [record(x), record(y)]);
  }

  lemma IndexesTwo(first: Pdu, second: Pdu, k: string, l: string)
    requires k == ExtractONUID(first.name) && l == ExtractONUID(second.name) && k != l
    ensures IndexesWalk([first, second], map[k := first, l := second])
  {
    assert LastOf([first, second], 0) && LastOf([first, second], 1);
  }

  lemma OneByText(last: string)
    requires last == "1" || last == "01"
    ensures ExtractONUID(['.'] + last) == last && ExtractIDOnuID(['.'] + last) == 1
  {
    LastPartOf("", last);
    assert "" + ['.'] + last == ['.'] + last;
    assert "1"[..0] == "" && "01"[..1] == "0" && "0"[..0] == "";
    assert Text.Value("0") == 0;
    assert Text.Value(last) == 1;
  }

  // ----- free ids

  const MAX_ONU_ID_PER_PON: int := 128

  datatype OnuId = OnuId(board: int, pon: int, id: int)

  function OnuIdLeq(): (OnuId, OnuId) -> bool { (a: OnuId, b: OnuId) => a.id <= b.id }

  /** Exactly the ids up to n that are not in use, ascending. */
  ghost predicate FreeUpTo(board: int, pon: int, used: set<int>, n: int, free: seq<OnuId>) {
    && (forall i, j :: 0 <= i < j < |free| ==> free[i].id < free[j].id)
    && (forall i :: 0 <= i < |free| ==> free[i].board == board && free[i].pon == pon)
    && (forall id :: IsFree(free, id) <==> 1 <= id <= n && id !in used)
  }

  ghost predicate IsFree(free: seq<OnuId>, id: int) {
    exists i :: 0 <= i < |free| && free[i].id == id
  }

  ghost function WalkedIds(walk: seq<Pdu>): set<int> {
    set i | 0 <= i < |walk| :: ExtractIDOnuID(walk[i].name)
  }

  method FreeIds(board: int, pon: int, walk: seq<Pdu>) returns (free: seq<OnuId>)
    ensures FreeUpTo(board, pon, WalkedIds(walk), MAX_ONU_ID_PER_PON, free)
  {
    free := [];
    for n := 0 to |walk|
      invariant |free| == n
      invariant forall i :: 0 <= i < n ==> free[i] == OnuId(board, pon, ExtractIDOnuID(walk[i].name))
    {
      free := free + [OnuId(board, pon, ExtractIDOnuID(walk[n].name))];
    }
    var numbersToRemove := MarkUsed(free);
    assert numbersToRemove == WalkedIds(walk);
    free := [];
    var i := 1;
    while i <= MAX_ONU_ID_PER_PON
      invariant 1 <= i <= MAX_ONU_ID_PER_PON + 1
      invariant FreeUpTo(board, pon, numbersToRemove, i - 1, free)
    {
      ghost var before := free;
      if i !in numbersToRemove {
        free := free + [OnuId(board, pon, i)];
      }
      FreeNext(board, pon, numbersToRemove, i, before, free);
      i := i + 1;
    }
    ghost var ascending := free;
    free := Sort(OnuIdLeq(), free);
    assert NoTies(OnuIdLeq(), ascending);
    SortedUnique(OnuIdLeq(), ascending, free);
  }

  method MarkUsed(ids: seq<OnuId>) returns (used: set<int>)
    ensures used == set i | 0 <= i < |ids| :: ids[i].id
  {
    used := {};
    for n := 0 to |ids|
      invariant used == set i | 0 <= i < n :: ids[i].id
    {
      used := used + {ids[n].id};
    }
  }

  lemma FreeNext(board: int, pon: int, used: set<int>, n: int, before: seq<OnuId>, free: seq<OnuId>)
    requires 1 <= n && FreeUpTo(board, pon, used, n - 1, before)
    requires free == if n in used then before else before + [OnuId(board, pon, n)]
    ensures FreeUpTo(board, pon, used, n, free)
  {
    forall i | 0 <= i < |before| ensures before[i].id < n {
      assert IsFree(before, before[i].id);
    }
    forall id ensures IsFree(free, id) <==> IsFree(before, id) || (id == n && n !in used) {
      if id == n && n !in used {
        assert free[|before|].id == n;
      } else if i :| 0 <= i < |before| && before[i].id == id {
        assert free[i].id == id;
      }
    }
  }

  /** For one walk, every admissible id is either listed or free, and never both. */
  lemma ListedOrFree(record: Pdu -> OnuInfo, walk: seq<Pdu>, list: seq<OnuInfo>, board: int, pon: int, free: seq<OnuId>, id: int)
    requires KeepsId(record) && IsOnuList(record, walk, list)
    requires FreeUpTo(board, pon, WalkedIds(walk), MAX_ONU_ID_PER_PON, free)
    ensures IsFree(free, id) <==> 1 <= id <= MAX_ONU_ID_PER_PON && !Listed(list, id)
  {
    ListedAreWalked(record, walk, list, id);
    assert Walked(walk, id) <==> id in WalkedIds(walk);
  }

  // ----- what the fields of a record are

  /** The device answers every OID of a Get on its own. */
  ghost predicate AnswersEach(answers: Answers, value: string -> Value) {
    forall oids :: answers(oids).Some? && |answers(oids).value| == |oids|
      && forall i :: 0 <= i < |oids| ==> answers(oids).value[i] == value(oids[i])
  }

  /** A value as text; anything else is shown as told. */
  function TextOr(v: Value, other: string): string {
    match v
    case TextValue(text) => text
    case Number(_) => other
    case Other => other
  }

  /** A serial number is what follows a leading "1,", if there is one. */
  ghost predicate IsSerial(v: Value, serial: string) {
    if !v.TextValue? then serial == ""
    else if |v.text| >= 2 && v.text[0] == '1' && v.text[1] == ',' then v.text == "1," + serial
    else serial == v.text
  }

  const STATUS_TEXTS := ["Logging", "LOS", "Synchronization", "Online", "Dying Gasp", "Auth Failed", "Offline"]

  /** Status codes 1 to 7 have names; anything else is unknown. */
  ghost predicate IsStatus(v: Value, status: string) {
    status == if v.Number? && 1 <= v.n <= 7 then STATUS_TEXTS[v.n - 1] else "Unknown"
  }

  /** A record's details are those its four columns hold for its id. */
  ghost predicate HasFields(board: int, pon: int, typeOid: string, serialOid: string, rxPowerOid: string, statusOid: string,
                            showPower: int -> string, value: string -> Value, pdu: Pdu, r: OnuInfo) {
    var id := Itoa(r.id);
    var rx := value(rxPowerOid + "." + id + ".1");
    && r.board == board && r.pon == pon && r.id == ExtractIDOnuID(pdu.name)
    && r.name == TextOr(pdu.value, "Unknown")
    && r.onuType == TextOr(value(typeOid + "." + id), "Unknown")
    && IsSerial(value(serialOid + "." + id), r.serialNumber)
    && r.rxPower == (if rx.Number? then showPower(rx.n) else "")
    && IsStatus(value(statusOid + "." + id), r.status)
  }

  lemma SerialExact(v: Value)
    ensures IsSerial(v, ExtractSerialNumber(v))
  {
    if v.TextValue? {
      var text := v.text;
      assert "1," <= text <==> |text| >= 2 && text[0] == '1' && text[1] == ',';
      if "1," <= text {
        assert text == "1," + text[2..];
      }
    }
  }

  lemma StatusExact(v: Value)
    ensures IsStatus(v, ExtractAndGetStatus(v))
  {
    assert STATUS_TEXTS[0] == "Logging" && STATUS_TEXTS[1] == "LOS" && STATUS_TEXTS[2] == "Synchronization";
    assert STATUS_TEXTS[3] == "Online" && STATUS_TEXTS[4] == "Dying Gasp" && STATUS_TEXTS[5] == "Auth Failed";
    assert STATUS_TEXTS[6] == "Offline";
  }

  /** Every detail of a record comes from its own column. */
  lemma RecordHasFields(p: Port, answers: Answers, value: string -> Value, pdu: Pdu)
    requires AnswersEach(answers, value)
    ensures HasFields(p.board, p.pon, p.baseOid2 + p.oids.typeOid, p.baseOid1 + p.oids.serialOid,
                      p.baseOid1 + p.oids.rxPowerOid, p.baseOid1 + p.oids.statusOid, p.showPower, value, pdu,
                      Record(p, answers, pdu))
  {
    var id := ExtractIDOnuID(pdu.name);
    var oids := BatchOids(p, id);
    assert answers(oids).Some?;
    var vs := answers(oids).value;
    assert vs[0] == value(oids[0]) && vs[1] == value(oids[1]) && vs[2] == value(oids[2]) && vs[3] == value(oids[3]);
    SerialExact(vs[1]);
    StatusExact(vs[3]);
  }

  /** When the Get fails or comes back short the four details stay empty. */
  lemma FailedGetLeavesBlank(p: Port, answers: Answers, pdu: Pdu)
    requires forall oids :: answers(oids) == None || |answers(oids).value| < 4
    ensures var r := Record(p, answers, pdu);
      && r.onuType == "" && r.serialNumber == "" && r.rxPower == "" && r.status == ""
      && r.board == p.board && r.pon == p.pon && r.id == ExtractIDOnuID(pdu.name) && r.name == TextOr(pdu.value, "Unknown")
  {
  }
}

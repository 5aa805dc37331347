/** The change key of an OLT config: the text Reconcile compares to decide whether the
    SNMP connection must be rebuilt. */
module ChangeKeys {
  import opened Text
  import opened Sorting
  import opened Olts

  function BoardText(slot: int, pons: int): string {
    Itoa(slot) + ":" + Itoa(pons)
  }

  function BoardTexts(boardPons: map<int, int>): set<string> {
    set s | s in boardPons :: BoardText(s, boardPons[s])
  }

  function WalkText(walk: bool): string {
    if walk then "true" else "false"
  }

  function KeyText(host: string, port: string, community: string, walk: string, boards: string): string {
    Join([host, port, community, walk, boards], '|')
  }

  /** The change key. Boards are sorted, so it is a function of the map and not of its visiting order. */
  ghost function ChangeKey(o: OltConfig): string {
    KeyText(o.host, Itoa(o.port), o.community, WalkText(o.useWalk), BoardList(o.boardPons))
  }

  /** Equality of everything that matters for the connection. */
  predicate SameConnection(o: OltConfig, p: OltConfig) {
    o.host == p.host && o.port == p.port && o.community == p.community
    && o.useWalk == p.useWalk && o.boardPons == p.boardPons
  }

  /** Fills and sorts a list while visiting the map in any order. */
  method OltChangeKey(o: OltConfig) returns (key: string)
    ensures key == ChangeKey(o)
  {
    var boards: seq<string> := [];
    var rest := o.boardPons.Keys;
    ghost var done: set<string> := {};
    while rest != {}
      invariant rest <= o.boardPons.Keys
      invariant done == set s | s in o.boardPons && s !in rest :: BoardText(s, o.boardPons[s])
      invariant multiset(boards) == multiset(done)
      decreases |rest|
    {
      SomeMember(rest);
      var slot :| slot in rest;
      var text := BoardText(slot, o.boardPons[slot]);
      FreshText(o.boardPons, slot, rest);
      assert multiset(done + {text}) == multiset(done) + multiset{text};
      boards := boards + [text];
      done := done + {text};
      rest := rest - {slot};
    }
    assert done == BoardTexts(o.boardPons);
    StringOrder();
    boards := Sort(StringLeq(), boards);
    SortedUnique(StringLeq(), boards, SortedSet(BoardTexts(o.boardPons)));
    key := KeyText(o.host, Itoa(o.port), o.community, WalkText(o.useWalk), Join(boards, ','));
  }

  lemma FreshText(m: map<int, int>, slot: int, rest: set<int>)
    requires slot in m && slot in rest
    ensures BoardText(slot, m[slot]) !in set s | s in m && s !in rest :: BoardText(s, m[s])
  {
    forall s | s in m && s !in rest ensures BoardText(s, m[s]) != BoardText(slot, m[slot]) {
      if BoardText(s, m[s]) == BoardText(slot, m[slot]) {
        BoardTextInjective(s, m[s], slot, m[slot]);
      }
    }
  }

  lemma BoardTextInjective(s: int, p: int, s': int, p': int)
    requires BoardText(s, p) == BoardText(s', p')
    ensures s == s' && p == p'
  {
    ItoaHasNo(s, ':');
    ItoaHasNo(s', ':');
    CutUnique(Itoa(s), Itoa(p), Itoa(s'), Itoa(p'), ':');
    ItoaInjective(s, s');
    ItoaInjective(p, p');
  }

  /** The board texts determine the topology. */
  lemma BoardTextsInjective(m: map<int, int>, m': map<int, int>)
    requires BoardTexts(m) == BoardTexts(m')
    ensures m == m'
  {
    forall s ensures s in m ==> s in m' && m'[s] == m[s] {
      if s in m {
        assert BoardText(s, m[s]) in BoardTexts(m');
        var t :| t in m' && BoardText(t, m'[t]) == BoardText(s, m[s]);
        BoardTextInjective(t, m'[t], s, m[s]);
      }
    }
    forall s ensures s in m' ==> s in m {
      if s in m' {
        assert BoardText(s, m'[s]) in BoardTexts(m);
        var t :| t in m && BoardText(t, m[t]) == BoardText(s, m'[s]);
        BoardTextInjective(t, m[t], s, m'[s]);
      }
    }
  }

  lemma BoardTextHasNo(s: int, p: int, c: char)
    requires !IsDigit(c) && c != '-' && c != ':'
    ensures Free(BoardText(s, p), c)
  {
    ItoaHasNo(s, c);
    ItoaHasNo(p, c);
  }

  lemma SortedTexts(m: map<int, int>, text: string)
    requires text in SortedSet(BoardTexts(m))
    ensures text != "" && Free(text, ',') && Free(text, '|')
  {
    var list := SortedSet(BoardTexts(m));
    assert text in multiset(list);
    var s :| s in m && text == BoardText(s, m[s]);
    BoardTextHasNo(s, m[s], ',');
    BoardTextHasNo(s, m[s], '|');
  }

  ghost function BoardList(m: map<int, int>): string {
    Join(SortedSet(BoardTexts(m)), ',')
  }

  lemma SortedTextsClean(m: map<int, int>)
    ensures forall t :: t in SortedSet(BoardTexts(m)) ==> t != "" && Free(t, ',') && Free(t, '|')
  {
    forall t | t in SortedSet(BoardTexts(m)) ensures t != "" && Free(t, ',') && Free(t, '|') {
      SortedTexts(m, t);
    }
  }

  /** Joining is injective on lists of non-empty texts without the separator. */
  lemma JoinInjective(a: seq<string>, b: seq<string>, sep: char)
    requires Join(a, sep) == Join(b, sep)
    requires forall t :: t in a || t in b ==> t != "" && Free(t, sep)
    ensures a == b
  {
    if a != [] && b != [] {
      SplitOfJoin(a, sep);
      SplitOfJoin(b, sep);
    } else {
      JoinEmpty(a, sep);
      JoinEmpty(b, sep);
    }
  }

  lemma JoinEmpty(a: seq<string>, sep: char)
    requires forall t :: t in a ==> t != ""
    ensures Join(a, sep) == "" <==> a == []
  {
    if a != [] {
      assert a[0] in a;
    }
  }

  lemma BoardListInjective(m: map<int, int>, m': map<int, int>)
    requires BoardList(m) == BoardList(m')
    ensures m == m'
  {
    var a, b := SortedSet(BoardTexts(m)), SortedSet(BoardTexts(m'));
    SortedTextsClean(m);
    SortedTextsClean(m');
    JoinInjective(a, b, ',');
    SameMultiset(BoardTexts(m), BoardTexts(m'));
    BoardTextsInjective(m, m');
  }

  lemma SameMultiset(a: set<string>, b: set<string>)
    requires multiset(a) == multiset(b)
    ensures a == b
  {
    forall t ensures t in a <==> t in b {
      assert t in multiset(a) <==> t in multiset(b);
    }
  }

  lemma {:induction false} JoinFree(parts: seq<string>, sep: char, c: char)
    requires sep != c && forall i :: 0 <= i < |parts| ==> Free(parts[i], c)
    ensures Free(Join(parts, sep), c)
  {
    if |parts| <= 1 {
    } else {
      JoinFree(parts[1..], sep, c);
    }
  }

  lemma BoardListFree(m: map<int, int>)
    ensures Free(BoardList(m), '|')
  {
    SortedTextsClean(m);
    JoinFree(SortedSet(BoardTexts(m)), ',', '|');
  }

  // ----- the fields of a key

  /** The texts of a key's port, walk and board fields have no "|" in them. */
  predicate Plain(port: string, walk: string, boards: string) {
    Free(port, '|') && Free(walk, '|') && Free(boards, '|')
  }

  lemma KeyIsPlain(o: OltConfig)
    ensures Plain(Itoa(o.port), WalkText(o.useWalk), BoardList(o.boardPons))
  {
    ItoaHasNo(o.port, '|');
    BoardListFree(o.boardPons);
  }

  /** The "|"-separated fields of a key: those of the host, the port, those of the community, walk flag, boards. */
  lemma KeyFields(host: string, port: string, community: string, walk: string, boards: string)
    requires Plain(port, walk, boards)
    ensures Split(KeyText(host, port, community, walk, boards), '|')
      == Split(host, '|') + [port] + Split(community, '|') + [walk, boards]
  {
    SplitOfJoinedLines([host, port, community, walk, boards], '|');
    FiveLines(host, port, community, walk, boards);
    SplitFree(port, '|');
    SplitFree(walk, '|');
    SplitFree(boards, '|');
  }

  lemma FiveLines(a: string, b: string, c: string, d: string, e: string)
    ensures SplitAll([a, b, c, d, e], '|')
      == Split(a, '|') + Split(b, '|') + Split(c, '|') + (Split(d, '|') + Split(e, '|'))
  {
    SplitAllCons(e, [], '|');
    assert [e] + [] == [e] && Split(e, '|') + [] == Split(e, '|');
    SplitAllCons(d, [e], '|');
    assert [d] + [e] == [d, e];
    SplitAllCons(c, [d, e], '|');
    assert [c] + [d, e] == [c, d, e];
    SplitAllCons(b, [c, d, e], '|');
    assert [b] + [c, d, e] == [b, c, d, e];
    SplitAllCons(a, [b, c, d, e], '|');
    assert [a] + [b, c, d, e] == [a, b, c, d, e];
    Associate(Split(a, '|'), Split(b, '|'), Split(c, '|'), Split(d, '|') + Split(e, '|'));
  }

  lemma Associate(a: seq<string>, b: seq<string>, c: seq<string>, d: seq<string>)
    ensures a + (b + (c + d)) == a + b + c + d
  {
  }

  /** Where equal field lists agree: the last two fields always, everything when the hosts have
      equally many fields, and otherwise the shorter one's port is a field of the longer host. */
  lemma FieldsAgree(a: seq<string>, p: string, b: seq<string>, w: string, l: string,
                    a': seq<string>, p': string, b': seq<string>, w': string, l': string)
    requires a + [p] + b + [w, l] == a' + [p'] + b' + [w', l']
    ensures w == w' && l == l'
    ensures |a| == |a'| ==> a == a' && p == p' && b == b'
    ensures |a| < |a'| ==> a'[|a|] == p
  {
    var s := a + [p] + b + [w, l];
    assert s[|s| - 2] == w && s[|s| - 1] == l;
    assert s[|s| - 2] == w' && s[|s| - 1] == l';
    assert s[|a|] == p && s[|a'|] == p';
    assert |a| < |a'| ==> s[|a|] == a'[|a|];
    assert a == s[..|a|] && b == s[|a| + 1..|s| - 2];
    assert a' == s[..|a'|] && b' == s[|a'| + 1..|s| - 2];
  }

  predicate IsPortText(s: string) {
    match Atoi(s)
    case Some(n) => IsPort(n) && Itoa(n) == s
    case None => false
  }

  /** A host is ambiguous when a field after its first "|" reads as a port. Without a "|" it never is. */
  predicate Ambiguous(host: string) {
    exists k :: 1 <= k < |Split(host, '|')| && IsPortText(Split(host, '|')[k])
  }

  lemma PlainHost(host: string)
    requires Free(host, '|')
    ensures !Ambiguous(host)
  {
    SplitFree(host, '|');
  }

  lemma KeysAgree(o: OltConfig, p: OltConfig)
    requires ChangeKey(o) == ChangeKey(p)
    ensures WalkText(o.useWalk) == WalkText(p.useWalk) && BoardList(o.boardPons) == BoardList(p.boardPons)
    ensures |Split(o.host, '|')| == |Split(p.host, '|')| ==>
      o.host == p.host && Itoa(o.port) == Itoa(p.port) && o.community == p.community
    ensures |Split(o.host, '|')| < |Split(p.host, '|')| ==>
      Split(p.host, '|')[|Split(o.host, '|')|] == Itoa(o.port)
  {
    KeyIsPlain(o);
    KeyIsPlain(p);
    KeyFields(o.host, Itoa(o.port), o.community, WalkText(o.useWalk), BoardList(o.boardPons));
    KeyFields(p.host, Itoa(p.port), p.community, WalkText(p.useWalk), BoardList(p.boardPons));
    FieldsAgree(Split(o.host, '|'), Itoa(o.port), Split(o.community, '|'), WalkText(o.useWalk), BoardList(o.boardPons),
                Split(p.host, '|'), Itoa(p.port), Split(p.community, '|'), WalkText(p.useWalk), BoardList(p.boardPons));
    if |Split(o.host, '|')| == |Split(p.host, '|')| {
      SplitInjective(o.host, p.host, '|');
      SplitInjective(o.community, p.community, '|');
    }
  }

  /** Whatever the hosts and communities are, equal keys mean equal topologies and walk flags. */
  lemma EqualKeysSameBoards(o: OltConfig, p: OltConfig)
    requires ChangeKey(o) == ChangeKey(p)
    ensures o.boardPons == p.boardPons && o.useWalk == p.useWalk
  {
    KeysAgree(o, p);
    BoardListInjective(o.boardPons, p.boardPons);
    assert |WalkText(true)| != |WalkText(false)|;
  }

  /** Of two configs with equal keys, a host with more fields than the other is ambiguous. */
  lemma LongerHostAmbiguous(o: OltConfig, p: OltConfig)
    requires ChangeKey(o) == ChangeKey(p) && IsPort(o.port)
    requires |Split(o.host, '|')| < |Split(p.host, '|')|
    ensures Ambiguous(p.host)
  {
    KeysAgree(o, p);
    ParseOfItoa(o.port);
    var k := |Split(o.host, '|')|;
    assert IsPortText(Split(p.host, '|')[k]);
  }

  /** Two OLT configs have equal change keys exactly when nothing that matters for the connection
      differs, for all hosts that are not ambiguous and any communities. */
  lemma ChangeKeyExact(o: OltConfig, p: OltConfig)
    requires IsPort(o.port) && IsPort(p.port)
    requires !Ambiguous(o.host) && !Ambiguous(p.host)
    ensures ChangeKey(o) == ChangeKey(p) <==> SameConnection(o, p)
  {
    if ChangeKey(o) == ChangeKey(p) {
      if |Split(o.host, '|')| < |Split(p.host, '|')| {
        LongerHostAmbiguous(o, p);
      } else if |Split(o.host, '|')| > |Split(p.host, '|')| {
        LongerHostAmbiguous(p, o);
      } else {
        KeysAgree(o, p);
        EqualKeysSameBoards(o, p);
        ItoaInjective(o.port, p.port);
      }
    }
  }

  /** The community that takes over the fields of the host after field k, and the port. */
  function Shifted(host: string, k: nat, port: string, community: string): string
    requires k < |Split(host, '|')|
  {
    Join(Split(host, '|')[k + 1..] + [port], '|') + ['|'] + community
  }

  lemma ShiftedFields(host: string, k: nat, port: string, community: string)
    requires k < |Split(host, '|')| && Free(port, '|')
    ensures Split(Shifted(host, k, port, community), '|')
      == Split(host, '|')[k + 1..] + [port] + Split(community, '|')
  {
    var rest := Split(host, '|')[k + 1..] + [port];
    SplitConcat(Join(rest, '|'), community, '|');
    SplitOfJoin(rest, '|');
  }

  lemma Regroup(f: seq<string>, k: nat, p: string, c: seq<string>, last: seq<string>)
    requires k < |f|
    ensures f[..k] + [f[k]] + (f[k + 1..] + [p] + c) + last == f + [p] + c + last
  {
    assert f == f[..k] + [f[k]] + f[k + 1..];
  }

  /** Moving a field of the host over to the port, and the port into the community, keeps the key's text. */
  lemma ShiftKeepsKey(host: string, k: nat, port: string, community: string, walk: string, boards: string)
    requires 1 <= k < |Split(host, '|')| && Plain(port, walk, boards)
    ensures KeyText(host, port, community, walk, boards)
      == KeyText(Join(Split(host, '|')[..k], '|'), Split(host, '|')[k], Shifted(host, k, port, community), walk, boards)
  {
    var f := Split(host, '|');
    var head, shifted := Join(f[..k], '|'), Shifted(host, k, port, community);
    KeyFields(host, port, community, walk, boards);
    KeyFields(head, f[k], shifted, walk, boards);
    SplitOfJoin(f[..k], '|');
    ShiftedFields(host, k, port, community);
    Regroup(f, k, port, Split(community, '|'), [walk, boards]);
    SplitInjective(KeyText(host, port, community, walk, boards), KeyText(head, f[k], shifted, walk, boards), '|');
  }

  /** The condition is exact: every ambiguous host has a config whose key is also the key
      of a config with another host. */
  lemma AmbiguousHostsCollide(o: OltConfig) returns (p: OltConfig)
    requires Ambiguous(o.host)
    ensures ChangeKey(p) == ChangeKey(o) && p.host != o.host && IsPort(p.port)
    ensures p == o.(host := p.host, port := p.port, community := p.community)
  {
    var f := Split(o.host, '|');
    var k :| 1 <= k < |f| && IsPortText(f[k]);
    var community := Shifted(o.host, k, Itoa(o.port), o.community);
    p := o.(host := Join(f[..k], '|'), port := Atoi(f[k]).value, community := community);
    KeyIsPlain(o);
    ShiftKeepsKey(o.host, k, Itoa(o.port), o.community, WalkText(o.useWalk), BoardList(o.boardPons));
    SplitOfJoin(f[..k], '|');
    assert Split(p.host, '|') != f;
  }

  /** A key, from the back of its host on. */
  lemma KeyTextIs(host: string, port: string, community: string, walk: string, boards: string)
    ensures KeyText(host, port, community, walk, boards)
      == host + ['|'] + (port + ['|'] + (community + ['|'] + Join([walk, boards], '|')))
  {
    JoinCons(community, [walk, boards], '|');
    JoinCons(port, [community] + [walk, boards], '|');
    JoinCons(host, [port] + ([community] + [walk, boards]), '|');
    assert [host, port, community, walk, boards] == [host] + ([port] + ([community] + [walk, boards]));
  }

  lemma SmallNumbers()
    ensures Itoa(1) == "1" && Itoa(161) == "161"
  {
    assert Digits(1) == "1" && Digits(16) == "16";
    assert Digits(161) == Digits(16) + [DigitChar(1)];
  }

  lemma ExampleTexts(rest: string)
    ensures "h|1" + ['|'] + ("161" + ['|'] + ("c" + rest)) == "h" + ['|'] + ("1" + ['|'] + ("161|c" + rest))
  {
    assert "h|1" == "h" + ['|'] + "1" && "161|c" == "161" + ['|'] + "c";
  }

  lemma ExampleIsAmbiguous()
    ensures Ambiguous("h|1")
  {
    SplitFirst("h", "1", '|');
    SplitFree("1", '|');
    ParseOfItoa(1);
    SmallNumbers();
    assert "h|1" == "h" + ['|'] + "1";
    assert IsPortText(Split("h|1", '|')[1]);
  }

  lemma ExampleKeys(walk: string, boards: string)
    ensures KeyText("h|1", Itoa(161), "c", walk, boards) == KeyText("h", Itoa(1), "161|c", walk, boards)
  {
    SmallNumbers();
    KeyTextIs("h|1", "161", "c", walk, boards);
    KeyTextIs("h", "1", "161|c", walk, boards);
    var rest := ['|'] + Join([walk, boards], '|');
    assert "c" + ['|'] + Join([walk, boards], '|') == "c" + rest;
    assert "161|c" + ['|'] + Join([walk, boards], '|') == "161|c" + rest;
    ExampleTexts(rest);
  }

  /** Injectivity does fail for hosts the code accepts: host "h|1", port 161, community "c" and
      host "h", port 1, community "161|c" have one key and are different connections. */
  lemma CollisionExample(some: OltConfig)
    ensures var o := some.(host := "h|1", port := 161, community := "c");
      var p := some.(host := "h", port := 1, community := "161|c");
      ChangeKey(o) == ChangeKey(p) && !SameConnection(o, p) && Ambiguous(o.host)
  {
    ExampleIsAmbiguous();
    ExampleKeys(WalkText(some.useWalk), BoardList(some.boardPons));
  }
}

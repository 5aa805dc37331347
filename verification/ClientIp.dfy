/** The client address of a request behind trusted proxies: the chain of forwarding hops is walked
    from the right, and what an untrusted hop wrote is never believed. */
module ClientIp {
  import opened Text

  // ----- addresses and prefixes

  /** An IPv4 address, or an IPv6 address with its zone. */
  datatype Addr = V4(bits: nat) | V6(bits: nat, zone: string)

  datatype Prefix = Prefix(addr: Addr, length: nat)

  /** The bits without their n lowest ones. */
  function ShiftRight(bits: nat, n: nat): nat
    decreases n
  {
    if n == 0 then bits else ShiftRight(bits / 2, n - 1)
  }

  /** The bits with their n lowest ones cleared. */
  function ClearLow(bits: nat, n: nat): nat
    decreases n
  {
    if n == 0 then bits else 2 * ClearLow(bits / 2, n - 1)
  }

  lemma {:induction false} ShiftOfCleared(bits: nat, n: nat)
    ensures ShiftRight(ClearLow(bits, n), n) == ShiftRight(bits, n)
    decreases n
  {
    if n == 0 {
    } else {
      ShiftOfCleared(bits / 2, n - 1);
      assert ClearLow(bits, n) / 2 == ClearLow(bits / 2, n - 1);
    }
  }

  const IPV4_MAPPED: nat := 0xffff_0000_0000

  /** An IPv4-mapped IPv6 address as the IPv4 address it stands for. */
  function Unmap(a: Addr): Addr {
    if a.V6? && IPV4_MAPPED <= a.bits < IPV4_MAPPED + 0x1_0000_0000 then V4(a.bits - IPV4_MAPPED) else a
  }

  function Width(a: Addr): nat {
    if a.V4? then 32 else 128
  }

  /** Same family, no zone, and the same leading bits. */
  predicate PrefixContains(p: Prefix, a: Addr) {
    && p.addr.V4? == a.V4? && (a.V6? ==> a.zone == "")
    && p.length <= Width(a)
    && ShiftRight(p.addr.bits, Width(a) - p.length) == ShiftRight(a.bits, Width(a) - p.length)
  }

  /** The address with the bits after the prefix cleared, and without its zone. */
  function Masked(p: Prefix): Prefix {
    if p.length > Width(p.addr) then p
    else
      var bits := ClearLow(p.addr.bits, Width(p.addr) - p.length);
      Prefix(if p.addr.V4? then V4(bits) else V6(bits, ""), p.length)
  }

  /** Masking a prefix does not change what it contains. */
  lemma MaskedContainsSame(p: Prefix, a: Addr)
    ensures PrefixContains(Masked(p), a) <==> PrefixContains(p, a)
  {
    if p.length <= Width(p.addr) {
      ShiftOfCleared(p.addr.bits, Width(p.addr) - p.length);
    }
  }

  function Pow2(n: nat): nat {
    if n == 0 then 1 else 2 * Pow2(n - 1)
  }

  lemma {:induction false} SamePrefixIsRange(a: nat, b: nat, n: nat)
    ensures ShiftRight(a, n) == ShiftRight(b, n) <==> ClearLow(b, n) <= a < ClearLow(b, n) + Pow2(n)
    decreases n
  {
    if n == 0 {
    } else {
      SamePrefixIsRange(a / 2, b / 2, n - 1);
    }
  }

  /** A prefix of length n over w bits contains, of its own family and without a zone, exactly the 2^(w-n) addresses
      from its masked address on. */
  lemma CidrIsRange(p: Prefix, a: Addr)
    requires p.length <= Width(p.addr)
    ensures var low := Masked(p).addr.bits;
      PrefixContains(p, a) <==>
        && p.addr.V4? == a.V4? && (a.V6? ==> a.zone == "")
        && low <= a.bits < low + Pow2(Width(p.addr) - p.length)
  {
    SamePrefixIsRange(p.addr.bits, a.bits, Width(p.addr) - p.length);
    SamePrefixIsRange(a.bits, p.addr.bits, Width(p.addr) - p.length);
  }

  /** ::ffff:a.b.c.d stands for a.b.c.d, and every other address for itself. */
  lemma MappedIsIPv4(bits: nat, zone: string)
    requires bits < 0x1_0000_0000
    ensures Unmap(V6(0xffff_0000_0000 + bits, zone)) == V4(bits) && Unmap(V4(bits)) == V4(bits)
    ensures forall n: nat :: n < 0xffff_0000_0000 || 0x1_0000_0000_0000 <= n ==> Unmap(V6(n, zone)) == V6(n, zone)
  {
  }

  /** Library calls: parsing and printing addresses and prefixes, and cutting the port off a peer. */
  datatype Lib = Lib(
    parseAddr: string -> Option<Addr>,
    parsePrefix: string -> Option<Prefix>,
    show: Addr -> string,
    host: string -> Option<string>)

  function Shown(lib: Lib, a: Addr): string {
    lib.show(Unmap(a))
  }

  /** The trusted set; None trusts nobody. */
  type TrustedProxies = Option<seq<Prefix>>

  ghost predicate Trusts(t: TrustedProxies, a: Addr) {
    t.Some? && exists i :: 0 <= i < |t.value| && PrefixContains(t.value[i], Unmap(a))
  }

  method Contains(t: TrustedProxies, a: Addr) returns (trusted: bool)
    ensures trusted <==> Trusts(t, a)
  {
    if t.None? {
      return false;
    }
    var addr := Unmap(a);
    for i := 0 to |t.value|
      invariant forall j :: 0 <= j < i ==> !PrefixContains(t.value[j], addr)
    {
      if PrefixContains(t.value[i], addr) {
        return true;
      }
    }
    return false;
  }

  // ----- the configured set

  /** What one entry of the list means: nothing, a prefix, or a typo. */
  function ParseEntry(lib: Lib, entry: string): Option<Option<Prefix>> {
    var e := TrimSpace(entry);
    if e == "" then Some(None)
    else if '/' in e then
      match lib.parsePrefix(e)
      case None => None
      case Some(p) => Some(Some(Masked(p)))
    else
      match lib.parseAddr(e)
      case None => None
      case Some(a) => Some(Some(Prefix(Unmap(a), Width(Unmap(a)))))
  }

  ghost predicate EntryTrusts(lib: Lib, entry: string, a: Addr) {
    var p := ParseEntry(lib, entry);
    p.Some? && p.value.Some? && PrefixContains(p.value.value, Unmap(a))
  }

  /** A single address in the list trusts itself and no other address. */
  lemma SingleAddressTrusted(lib: Lib, entry: string, x: Addr, a: Addr)
    requires TrimSpace(entry) != "" && '/' !in TrimSpace(entry) && lib.parseAddr(TrimSpace(entry)) == Some(x)
    ensures EntryTrusts(lib, entry, a) <==>
      && Unmap(a).V4? == Unmap(x).V4? && Unmap(a).bits == Unmap(x).bits
      && (Unmap(a).V6? ==> Unmap(a).zone == "")
  {
  }

  /** A blank entry trusts nobody and is no typo. */
  lemma BlankEntryTrustsNobody(lib: Lib, entry: string, a: Addr)
    requires forall c :: c in entry ==> IsSpace(c)
    ensures ParseEntry(lib, entry).Some? && !EntryTrusts(lib, entry, a)
  {
    BlankExactly(entry);
  }

  /** A CIDR in the list trusts what its prefix contains. */
  lemma CidrTrusted(lib: Lib, entry: string, p: Prefix, a: Addr)
    requires '/' in TrimSpace(entry) && lib.parsePrefix(TrimSpace(entry)) == Some(p)
    ensures EntryTrusts(lib, entry, a) <==> PrefixContains(p, Unmap(a))
  {
    MaskedContainsSame(p, Unmap(a));
  }

  /** A typo anywhere fails; otherwise an address is trusted exactly when some entry covers it. */
  method ParseTrustedProxies(lib: Lib, raw: string) returns (r: Option<seq<Prefix>>)
    ensures r.None? <==> exists e :: e in Split(raw, ',') && ParseEntry(lib, e).None?
    ensures r.Some? ==> forall a :: Trusts(r, a) <==> exists e :: e in Split(raw, ',') && EntryTrusts(lib, e, a)
  {
    var entries := Split(raw, ',');
    var prefixes: seq<Prefix> := [];
    for n := 0 to |entries|
      invariant forall e :: e in entries[..n] ==> ParseEntry(lib, e).Some?
      invariant forall p :: p in prefixes <==> exists e :: e in entries[..n] && ParseEntry(lib, e) == Some(Some(p))
    {
      assert entries[..n + 1] == entries[..n] + [entries[n]];
      match ParseEntry(lib, entries[n])
      case None => return None;
      case Some(None) =>
      case Some(Some(p)) => prefixes := prefixes + [p];
    }
    assert entries[..|entries|] == entries;
    r := Some(prefixes);
    forall a ensures Trusts(r, a) <==> exists e :: e in entries && EntryTrusts(lib, e, a) {
      CoveredExactly(lib, entries, prefixes, a);
    }
  }

  lemma CoveredExactly(lib: Lib, entries: seq<string>, prefixes: seq<Prefix>, a: Addr)
    requires forall p :: p in prefixes <==> exists e :: e in entries && ParseEntry(lib, e) == Some(Some(p))
    ensures Trusts(Some(prefixes), a) <==> exists e :: e in entries && EntryTrusts(lib, e, a)
  {
    if Trusts(Some(prefixes), a) {
      var i :| 0 <= i < |prefixes| && PrefixContains(prefixes[i], Unmap(a));
      var e :| e in entries && ParseEntry(lib, e) == Some(Some(prefixes[i]));
      assert EntryTrusts(lib, e, a);
    }
    if e :| e in entries && EntryTrusts(lib, e, a) {
      var p := ParseEntry(lib, e).value.value;
      assert ParseEntry(lib, e) == Some(Some(p)) && p in prefixes;
      var i :| 0 <= i < |prefixes| && prefixes[i] == p;
      assert PrefixContains(Some(prefixes).value[i], Unmap(a));
    }
  }

  // ----- the walk

  function ParseHop(lib: Lib, hop: string): Option<Addr> {
    lib.parseAddr(TrimSpace(hop))
  }

  /** The walk goes on past a hop that is a trusted proxy, and stops at any other. */
  ghost predicate Passes(lib: Lib, t: TrustedProxies, hop: string) {
    lib.parseAddr(TrimSpace(hop)).Some? && Trusts(t, lib.parseAddr(TrimSpace(hop)).value)
  }

  /** The hop the walk stops at: the rightmost one that is malformed or not trusted. */
  ghost predicate StopsAt(lib: Lib, t: TrustedProxies, hops: seq<string>, i: int) {
    && 0 <= i < |hops| && !Passes(lib, t, hops[i])
    && forall j :: i < j < |hops| ==> Passes(lib, t, hops[j])
  }

  ghost predicate Stops(lib: Lib, t: TrustedProxies, hops: seq<string>) {
    exists i :: StopsAt(lib, t, hops, i)
  }

  /** What a hop makes the client address be when the walk ends there. */
  function HopAddress(lib: Lib, hop: string, peer: string): string {
    match ParseHop(lib, hop)
    case None => peer
    case Some(a) => Shown(lib, a)
  }

  lemma HopAddressIs(lib: Lib, hop: string, peer: string)
    ensures HopAddress(lib, hop, peer) ==
      if lib.parseAddr(TrimSpace(hop)) == None then peer else lib.show(Unmap(lib.parseAddr(TrimSpace(hop)).value))
  {
  }

  /** The client address of a chain: that of the hop the walk stops at, or of the leftmost hop when
      every hop is a trusted proxy. */
  ghost predicate IsClient(lib: Lib, t: TrustedProxies, hops: seq<string>, peer: string, client: string) {
    && (forall i :: StopsAt(lib, t, hops, i) ==> client == HopAddress(lib, hops[i], peer))
    && (!Stops(lib, t, hops) ==> client == if hops == [] then peer else HopAddress(lib, hops[0], peer))
  }

  /** The walk as it goes: client is the address of the hop passed last. */
  ghost function Walk(lib: Lib, t: TrustedProxies, hops: seq<string>, client: string, peer: string): string {
    if hops == [] then client
    else
      var last := hops[|hops| - 1];
      if Passes(lib, t, last) then Walk(lib, t, hops[..|hops| - 1], HopAddress(lib, last, peer), peer)
      else HopAddress(lib, last, peer)
  }

  /** Hops to the right of a stopping suffix decide; a suffix of trusted proxies is walked through. */
  lemma {:induction false} WalkConcat(lib: Lib, t: TrustedProxies, more: seq<string>, hops: seq<string>, client: string, peer: string)
    ensures Walk(lib, t, more + hops, client, peer) ==
      if Stops(lib, t, hops) then Walk(lib, t, hops, client, peer)
      else Walk(lib, t, more, if hops == [] then client else HopAddress(lib, hops[0], peer), peer)
    decreases |hops|
  {
    if hops == [] {
      assert more + hops == more;
    } else {
      var n := |hops| - 1;
      assert (more + hops)[|more| + n] == hops[n] && (more + hops)[..|more| + n] == more + hops[..n];
      if Passes(lib, t, hops[n]) {
        StopsBefore(lib, t, hops);
        WalkConcat(lib, t, more, hops[..n], HopAddress(lib, hops[n], peer), peer);
      } else {
        StopsAtEnd(lib, t, hops);
      }
    }
  }

  lemma StopsAtEnd(lib: Lib, t: TrustedProxies, hops: seq<string>)
    requires hops != [] && !Passes(lib, t, hops[|hops| - 1])
    ensures Stops(lib, t, hops)
  {
    assert StopsAt(lib, t, hops, |hops| - 1);
  }

  lemma StopsBefore(lib: Lib, t: TrustedProxies, hops: seq<string>)
    requires hops != [] && Passes(lib, t, hops[|hops| - 1])
    ensures Stops(lib, t, hops) <==> Stops(lib, t, hops[..|hops| - 1])
  {
    var init := hops[..|hops| - 1];
    if i :| StopsAt(lib, t, hops, i) {
      assert StopsAt(lib, t, init, i);
    }
    if i :| StopsAt(lib, t, init, i) {
      assert hops[i] == init[i] && StopsAt(lib, t, hops, i);
    }
  }

  /** The walk ends at the rightmost hop that is malformed or untrusted, else at the leftmost hop. */
  lemma {:induction false} WalkIsClient(lib: Lib, t: TrustedProxies, hops: seq<string>, client: string, peer: string)
    requires hops != []
    ensures IsClient(lib, t, hops, peer, Walk(lib, t, hops, client, peer))
    decreases |hops|
  {
    var n := |hops| - 1;
    var init, last := hops[..n], hops[n];
    if !Passes(lib, t, last) {
      assert StopsAt(lib, t, hops, n);
    } else {
      StopsBefore(lib, t, hops);
      if n > 0 {
        WalkIsClient(lib, t, init, HopAddress(lib, last, peer), peer);
        forall i | StopsAt(lib, t, hops, i) ensures StopsAt(lib, t, init, i) {
        }
      }
    }
  }

  /** The walk's answer is the only client address the chain has. */
  lemma ClientUnique(lib: Lib, t: TrustedProxies, hops: seq<string>, peer: string, a: string, b: string)
    requires IsClient(lib, t, hops, peer, a) && IsClient(lib, t, hops, peer, b)
    ensures a == b
  {
    if Stops(lib, t, hops) {
      var i :| StopsAt(lib, t, hops, i);
    }
  }

  // ----- the request

  /** Which of the headers decide, and what they say. */
  ghost function Resolved(lib: Lib, t: TrustedProxies, remoteAddr: string, xff: seq<string>, xRealIp: string): string {
    var host := lib.host(remoteAddr);
    var peer := if host.Some? then host.value else remoteAddr;
    match lib.parseAddr(peer)
    case None => peer
    case Some(a) =>
      if !Trusts(t, a) then Shown(lib, a)
      else if !Blank(Join(xff, ',')) then Walk(lib, t, SplitAll(xff, ','), Shown(lib, a), Shown(lib, a))
      else if !Blank(xRealIp) then HopAddress(lib, xRealIp, Shown(lib, a))
      else Shown(lib, a)
  }

  predicate Blank(s: string) {
    TrimSpace(s) == ""
  }

  method ResolveClientIP(lib: Lib, t: TrustedProxies, remoteAddr: string, xff: seq<string>, xRealIp: string)
    returns (client: string)
    ensures client == Resolved(lib, t, remoteAddr, xff, xRealIp)
  {
    var peer := remoteAddr;
    var host := lib.host(remoteAddr);
    if host.Some? {
      peer := host.value;
    }
    var peerAddr := lib.parseAddr(peer);
    if peerAddr.None? {
      return peer;
    }
    peer := Shown(lib, peerAddr.value);
    var trusted := Contains(t, peerAddr.value);
    if !trusted {
      return peer;
    }
    var chain := Join(xff, ',');
    if TrimSpace(chain) != "" {
      SplitOfJoinedLines(xff, ',') by {
        assert xff != [];
      }
      client := WalkHops(lib, t, Split(chain, ','), peer);
      return;
    }
    var realIp := TrimSpace(xRealIp);
    if realIp != "" {
      var a := lib.parseAddr(realIp);
      if a.Some? {
        return Shown(lib, a.value);
      }
    }
    return peer;
  }

  method WalkHops(lib: Lib, t: TrustedProxies, hops: seq<string>, peer: string) returns (client: string)
    ensures client == Walk(lib, t, hops, peer, peer)
  {
    client := peer;
    var i := |hops| - 1;
    assert hops[..i + 1] == hops;
    while i >= 0
      invariant -1 <= i < |hops|
      invariant Walk(lib, t, hops, peer, peer) == Walk(lib, t, hops[..i + 1], client, peer)
    {
      var a := ParseHop(lib, hops[i]);
      assert hops[..i + 1][..i] == hops[..i];
      if a.None? {
        return peer;
      }
      client := Shown(lib, a.value);
      var trusted := Contains(t, a.value);
      if !trusted {
        return client;
      }
      i := i - 1;
    }
  }

  // ----- what a caller can and cannot influence

  /** Nothing a caller sends in the headers matters when the peer is not a trusted proxy. */
  lemma UntrustedPeerIgnoresHeaders(lib: Lib, t: TrustedProxies, remoteAddr: string,
                                    xff: seq<string>, realIp: string, xff': seq<string>, realIp': string)
    requires var host := lib.host(remoteAddr);
      var a := lib.parseAddr(if host.Some? then host.value else remoteAddr);
      a.None? || !Trusts(t, a.value)
    ensures Resolved(lib, t, remoteAddr, xff, realIp) == Resolved(lib, t, remoteAddr, xff', realIp')
  {
  }

  lemma {:induction false} BlankExactly(s: string)
    ensures Blank(s) <==> forall c :: c in s ==> IsSpace(c)
    decreases |s|
  {
    if s != "" {
      assert s[0] in s && s[|s| - 1] in s;
      assert s == [s[0]] + s[1..] && s == s[..|s| - 1] + [s[|s| - 1]];
      if IsSpace(s[0]) {
        BlankExactly(s[1..]);
      } else if IsSpace(s[|s| - 1]) {
        BlankExactly(s[..|s| - 1]);
      }
    }
  }

  lemma {:induction false} JoinKeeps(lines: seq<string>, more: seq<string>, sep: char, c: char)
    requires c in Join(lines, sep) && lines != []
    ensures c in Join(more + lines, sep)
    decreases |more|
  {
    if more == [] {
      assert more + lines == lines;
    } else {
      JoinKeeps(lines, more[1..], sep, c);
      assert (more + lines)[1..] == more[1..] + lines;
    }
  }

  lemma Associative<T>(a: seq<T>, b: seq<T>, c: seq<T>)
    ensures a + b + c == a + (b + c)
  {
  }

  lemma {:induction false} SplitAllConcat(more: seq<string>, lines: seq<string>, sep: char)
    ensures SplitAll(more + lines, sep) == SplitAll(more, sep) + SplitAll(lines, sep)
  {
    if more == [] {
      assert more + lines == lines;
    } else {
      var first, rest := more[0], more[1..];
      assert more == [first] + rest;
      ConsConcat(first, rest, lines);
      SplitAllCons(first, rest + lines, sep);
      SplitAllConcat(rest, lines, sep);
      SplitAllCons(first, rest, sep);
      Associative(Split(first, sep), SplitAll(rest, sep), SplitAll(lines, sep));
    }
  }

  /** Header lines in front of a chain the walk stops in never change the client address, whatever
      they contain: a caller cannot forge what stands to the left of its own address. */
  lemma ForgedLinesIgnored(lib: Lib, t: TrustedProxies, remoteAddr: string, forged: seq<string>, xff: seq<string>, realIp: string)
    requires !Blank(Join(xff, ',')) && Stops(lib, t, SplitAll(xff, ','))
    ensures Resolved(lib, t, remoteAddr, forged + xff, realIp) == Resolved(lib, t, remoteAddr, xff, realIp)
  {
    BlankExactly(Join(xff, ','));
    BlankExactly(Join(forged + xff, ','));
    var c :| c in Join(xff, ',') && !IsSpace(c);
    JoinKeeps(xff, forged, ',', c);
    SplitAllConcat(forged, xff, ',');
    var host := lib.host(remoteAddr);
    var a := lib.parseAddr(if host.Some? then host.value else remoteAddr);
    if a.Some? {
      var peer := Shown(lib, a.value);
      WalkConcat(lib, t, SplitAll(forged, ','), SplitAll(xff, ','), peer, peer);
    }
  }

  /** When every hop of the chain is a trusted proxy the lines in front do decide: they are walked on. */
  lemma TrustedChainIsWalkedThrough(lib: Lib, t: TrustedProxies, remoteAddr: string, first: seq<string>, xff: seq<string>, realIp: string)
    requires !Blank(Join(xff, ',')) && !Stops(lib, t, SplitAll(xff, ','))
    requires var host := lib.host(remoteAddr);
      var a := lib.parseAddr(if host.Some? then host.value else remoteAddr);
      a.Some? && Trusts(t, a.value)
    ensures Resolved(lib, t, remoteAddr, first + xff, realIp)
      == Walk(lib, t, SplitAll(first, ','), Resolved(lib, t, remoteAddr, xff, realIp), PeerAddress(lib, remoteAddr))
  {
    BlankExactly(Join(xff, ','));
    BlankExactly(Join(first + xff, ','));
    var c :| c in Join(xff, ',') && !IsSpace(c);
    JoinKeeps(xff, first, ',', c);
    SplitAllConcat(first, xff, ',');
    var peer := PeerAddress(lib, remoteAddr);
    WalkConcat(lib, t, SplitAll(first, ','), SplitAll(xff, ','), peer, peer);
    WalkConcat(lib, t, [], SplitAll(xff, ','), peer, peer);
    assert [] + SplitAll(xff, ',') == SplitAll(xff, ',');
  }

  function PeerAddress(lib: Lib, remoteAddr: string): string {
    var host := lib.host(remoteAddr);
    var peer := if host.Some? then host.value else remoteAddr;
    match lib.parseAddr(peer)
    case None => peer
    case Some(a) => Shown(lib, a)
  }

  /** The peer as the request names it: its host when it has a port. */
  function PeerText(lib: Lib, remoteAddr: string): string {
    if lib.host(remoteAddr).Some? then lib.host(remoteAddr).value else remoteAddr
  }

  /** A peer that is no address is the client as it stands; an untrusted one is the client by its address;
      a trusted one is asked for X-Forwarded-For, then for X-Real-IP, and is the client when neither says anything usable. */
  lemma ResolvedByCases(lib: Lib, t: TrustedProxies, remoteAddr: string, xff: seq<string>, realIp: string)
    ensures var client := Resolved(lib, t, remoteAddr, xff, realIp);
      match lib.parseAddr(PeerText(lib, remoteAddr))
      case None => client == PeerText(lib, remoteAddr)
      case Some(peer) =>
        && (!Trusts(t, peer) ==> client == lib.show(Unmap(peer)))
        && (Trusts(t, peer) && (exists c :: c in Join(xff, ',') && !IsSpace(c)) ==>
              IsClient(lib, t, SplitAll(xff, ','), lib.show(Unmap(peer)), client))
        && (Trusts(t, peer) && (forall c :: c in Join(xff, ',') ==> IsSpace(c)) ==>
              match lib.parseAddr(TrimSpace(realIp))
              case None => client == lib.show(Unmap(peer))
              case Some(a) => TrimSpace(realIp) != "" ==> client == lib.show(Unmap(a)))
  {
    BlankExactly(Join(xff, ','));
    if !Blank(Join(xff, ',')) {
      assert xff != [];
      SplitNotEmpty(xff);
      match lib.parseAddr(PeerText(lib, remoteAddr))
      case None =>
      case Some(peer) => WalkIsClient(lib, t, SplitAll(xff, ','), Shown(lib, peer), Shown(lib, peer));
    }
  }

  lemma SplitNotEmpty(lines: seq<string>)
    requires lines != []
    ensures SplitAll(lines, ',') != []
  {
    assert |Split(lines[0], ',')| >= 1;
  }
}

/** The Redis instance all OLTs share, as a step system of single commands: what is stored under an
    OLT's key was saved by that OLT, whatever the others do in between. */
module RedisStore {
  import opened Sorting
  import opened Olts
  import opened CacheKeys
  import opened OnuList
  import opened Runs

  datatype OnuSerial = OnuSerial(board: int, pon: int, id: int, serialNumber: string)

  datatype Cached = InfoList(list: seq<OnuList.OnuInfo>) | FreeList(ids: seq<OnuId>) | Serials(serials: seq<OnuSerial>)

  /** One successful save: whose answer to what. */
  datatype Save = Save(olt: string, slot: Slot, value: Cached)

  /** What is stored, and every save ever made. */
  datatype Store = Store(data: map<string, Cached>, saved: set<Save>)

  /** request numbers the request that issues the command; Redis does not see it. Del is also an entry running
      out of its time to live. */
  datatype Command =
    | Put(request: nat, olt: string, slot: Slot, value: Cached)
    | Del(request: nat, key: string)

  function BySerialId(): (OnuSerial, OnuSerial) -> bool { (a: OnuSerial, b: OnuSerial) => a.id <= b.id }

  /** What is saved for a slot is an answer of its kind about its port, ordered by id. */
  ghost predicate Fits(slot: Slot, value: Cached) {
    match slot.kind
    case OnuInfo => value.InfoList? && Sorted(ById(), value.list)
      && forall i :: 0 <= i < |value.list| ==> value.list[i].board == slot.board && value.list[i].pon == slot.pon
    case EmptyOnuId => value.FreeList?
      && exists used :: FreeUpTo(slot.board, slot.pon, used, MAX_ONU_ID_PER_PON, value.ids)
    case SerialList => value.Serials? && Sorted(BySerialId(), value.serials)
      && forall i :: 0 <= i < |value.serials| ==> value.serials[i].board == slot.board && value.serials[i].pon == slot.pon
    case OnuDetail(_) => false
  }

  ghost predicate Allowed(c: Command) {
    c.Put? ==> MatchesIdPattern(c.olt) && Fits(c.slot, c.value)
  }

  function Apply(defaultOlt: string, s: Store, c: Command): Store {
    match c
    case Put(_, olt, slot, value) =>
      Store(s.data[KeyOf(defaultOlt, olt, slot) := value], s.saved + {Save(olt, slot, value)})
    case Del(_, key) => s.(data := s.data - {key})
  }

  ghost function Acts(defaultOlt: string): (Store, Command, Store) -> bool {
    (s: Store, c: Command, t: Store) => Allowed(c) && t == Apply(defaultOlt, s, c)
  }

  /** Any OLT's requests lead from s to t. */
  ghost predicate Leads(defaultOlt: string, s: Store, t: Store) {
    Reaches(Acts(defaultOlt), Any(), s, t)
  }

  // ----- what every run keeps

  ghost predicate SavedAs(defaultOlt: string, s: Store, key: string, save: Save) {
    && save in s.saved && MatchesIdPattern(save.olt) && key == KeyOf(defaultOlt, save.olt, save.slot)
    && Fits(save.slot, save.value)
  }

  /** Everything stored was saved under the key of its OLT and slot. */
  ghost predicate Coherent(defaultOlt: string, s: Store) {
    forall key :: key in s.data ==> exists save :: SavedAs(defaultOlt, s, key, save) && save.value == s.data[key]
  }

  lemma CoherentStep(defaultOlt: string, s: Store, c: Command)
    requires Coherent(defaultOlt, s) && Allowed(c)
    ensures Coherent(defaultOlt, Apply(defaultOlt, s, c))
  {
    var t := Apply(defaultOlt, s, c);
    forall key | key in t.data
      ensures exists save :: SavedAs(defaultOlt, t, key, save) && save.value == t.data[key]
    {
      if c.Put? && key == KeyOf(defaultOlt, c.olt, c.slot) {
        assert SavedAs(defaultOlt, t, key, Save(c.olt, c.slot, c.value));
      } else {
        var save :| SavedAs(defaultOlt, s, key, save) && save.value == s.data[key];
        assert SavedAs(defaultOlt, t, key, save);
      }
    }
  }

  ghost function CoherentHolds(defaultOlt: string): Store -> bool { (s: Store) => Coherent(defaultOlt, s) }

  lemma CoherentRun(defaultOlt: string, s: Store, t: Store)
    requires Coherent(defaultOlt, s) && Leads(defaultOlt, s, t)
    ensures Coherent(defaultOlt, t)
  {
    forall s, c, t | CoherentHolds(defaultOlt)(s) && Any<Command>()(c) && Acts(defaultOlt)(s, c, t)
      ensures CoherentHolds(defaultOlt)(t)
    {
      CoherentStep(defaultOlt, s, c);
    }
    ReachesInduction(Acts(defaultOlt), Any(), s, t, CoherentHolds(defaultOlt));
  }

  /** What is stored under an OLT's key for a slot was saved by that OLT for that slot. */
  lemma StoredIsOwn(defaultOlt: string, s: Store, olt: string, slot: Slot)
    requires Coherent(defaultOlt, s) && MatchesIdPattern(olt) && KeyOf(defaultOlt, olt, slot) in s.data
    ensures Save(olt, slot, s.data[KeyOf(defaultOlt, olt, slot)]) in s.saved
    ensures Fits(slot, s.data[KeyOf(defaultOlt, olt, slot)])
  {
    var key := KeyOf(defaultOlt, olt, slot);
    var save :| SavedAs(defaultOlt, s, key, save) && save.value == s.data[key];
    KeysNeverCollide(defaultOlt, olt, slot, save.olt, save.slot);
  }

  /** Deleting a slot's key deletes it for no other OLT, port or kind. */
  lemma DeletionSpares(defaultOlt: string, s: Store, me: nat, olt: string, slot: Slot, other: string, slot': Slot)
    requires MatchesIdPattern(olt) && MatchesIdPattern(other)
    ensures KeyOf(defaultOlt, other, slot') in Apply(defaultOlt, s, Del(me, KeyOf(defaultOlt, olt, slot))).data
      <==> KeyOf(defaultOlt, other, slot') in s.data && !(other == olt && slot' == slot)
  {
    KeysNeverCollide(defaultOlt, olt, slot, other, slot');
  }

  /** What commands do: a save stores the value under its key, a deletion takes its key away, and no other key changes. */
  lemma CommandDoes(defaultOlt: string, s: Store, c: Command, key: string)
    ensures var t := Apply(defaultOlt, s, c);
      match c
      case Put(_, olt, slot, value) =>
        && KeyOf(defaultOlt, olt, slot) in t.data && t.data[KeyOf(defaultOlt, olt, slot)] == value
        && (key != KeyOf(defaultOlt, olt, slot) ==> SameValue(s, t, key))
      case Del(_, k) => k !in t.data && (key != k ==> SameValue(s, t, key)) && t.saved == s.saved
  {
  }

  predicate SameValue(s: Store, t: Store, key: string) {
    (key in t.data <==> key in s.data) && (key in s.data ==> t.data[key] == s.data[key])
  }

  // ----- the commands of one request among all others

  /** Commands of every request but this one. */
  ghost function NotOf(me: nat): Command -> bool { (c: Command) => c.request != me }

  ghost predicate OthersLead(defaultOlt: string, me: nat, s: Store, t: Store) {
    Reaches(Acts(defaultOlt), NotOf(me), s, t)
  }

  /** From s to t this request issues exactly these commands, in order, and others issue any before, between and
      after them. */
  ghost predicate Issues(defaultOlt: string, me: nat, s: Store, commands: seq<Command>, t: Store)
    decreases |commands|
  {
    if commands == [] then OthersLead(defaultOlt, me, s, t)
    else exists mid :: IssuesFirst(defaultOlt, me, s, mid, commands, t)
  }

  ghost predicate IssuesFirst(defaultOlt: string, me: nat, s: Store, mid: Store, commands: seq<Command>, t: Store)
    requires commands != []
    decreases |commands|, 0
  {
    && OthersLead(defaultOlt, me, s, mid) && Allowed(commands[0]) && commands[0].request == me
    && Issues(defaultOlt, me, Apply(defaultOlt, mid, commands[0]), commands[1..], t)
  }

  lemma IssuesNothing(defaultOlt: string, me: nat, s: Store)
    ensures Issues(defaultOlt, me, s, [], s)
  {
    ReachesItself(Acts(defaultOlt), NotOf(me), s);
  }

  /** The request waits. */
  lemma {:induction false} IssuesWait(defaultOlt: string, me: nat, s: Store, commands: seq<Command>, mid: Store, t: Store)
    requires Issues(defaultOlt, me, s, commands, mid) && OthersLead(defaultOlt, me, mid, t)
    ensures Issues(defaultOlt, me, s, commands, t)
    decreases |commands|
  {
    if commands == [] {
      ReachesThrough(Acts(defaultOlt), NotOf(me), s, mid, t);
    } else {
      var first :| IssuesFirst(defaultOlt, me, s, first, commands, mid);
      IssuesWait(defaultOlt, me, Apply(defaultOlt, first, commands[0]), commands[1..], mid, t);
      assert IssuesFirst(defaultOlt, me, s, first, commands, t);
    }
  }

  /** The request issues one more command. */
  lemma {:induction false} IssuesOneMore(defaultOlt: string, me: nat, s: Store, commands: seq<Command>, t: Store, c: Command)
    requires Issues(defaultOlt, me, s, commands, t) && Allowed(c) && c.request == me
    ensures Issues(defaultOlt, me, s, commands + [c], Apply(defaultOlt, t, c))
    decreases |commands|
  {
    var more, last := commands + [c], Apply(defaultOlt, t, c);
    if commands == [] {
      IssuesNothing(defaultOlt, me, last);
      assert more[1..] == [] && more[0] == c;
      assert IssuesFirst(defaultOlt, me, s, t, more, last);
    } else {
      var first :| IssuesFirst(defaultOlt, me, s, first, commands, t);
      IssuesOneMore(defaultOlt, me, Apply(defaultOlt, first, commands[0]), commands[1..], t, c);
      assert more[1..] == commands[1..] + [c] && more[0] == commands[0];
      assert IssuesFirst(defaultOlt, me, s, first, more, last);
    }
  }

  /** Two parts of one request, one after the other. */
  lemma {:induction false} IssuesThrough(defaultOlt: string, me: nat, s: Store, commands: seq<Command>, mid: Store,
                                         more: seq<Command>, t: Store)
    requires Issues(defaultOlt, me, s, commands, mid) && Issues(defaultOlt, me, mid, more, t)
    ensures Issues(defaultOlt, me, s, commands + more, t)
    decreases |more|
  {
    if more == [] {
      IssuesWait(defaultOlt, me, s, commands, mid, t);
      assert commands + more == commands;
    } else {
      var first := FirstOf(defaultOlt, me, mid, more, t);
      IssuesHead(defaultOlt, me, s, commands, mid, first, more, t);
      IssuesThrough(defaultOlt, me, s, commands + [more[0]], Apply(defaultOlt, first, more[0]), more[1..], t);
      HeadThenTail(commands, more);
    }
  }

  lemma FirstOf(defaultOlt: string, me: nat, mid: Store, more: seq<Command>, t: Store) returns (first: Store)
    requires more != [] && Issues(defaultOlt, me, mid, more, t)
    ensures IssuesFirst(defaultOlt, me, mid, first, more, t)
  {
    first :| IssuesFirst(defaultOlt, me, mid, first, more, t);
  }

  lemma HeadThenTail<T>(a: seq<T>, b: seq<T>)
    requires b != []
    ensures a + [b[0]] + b[1..] == a + b
  {
    assert b == [b[0]] + b[1..];
  }

  lemma IssuesHead(defaultOlt: string, me: nat, s: Store, commands: seq<Command>, mid: Store, first: Store,
                   more: seq<Command>, t: Store)
    requires Issues(defaultOlt, me, s, commands, mid) && more != [] && IssuesFirst(defaultOlt, me, mid, first, more, t)
    ensures Issues(defaultOlt, me, s, commands + [more[0]], Apply(defaultOlt, first, more[0]))
  {
    IssuesWait(defaultOlt, me, s, commands, mid, first);
    IssuesOneMore(defaultOlt, me, s, commands, first, more[0]);
  }

  /** A request is part of a run. */
  lemma {:induction false} IssuesLeads(defaultOlt: string, me: nat, s: Store, commands: seq<Command>, t: Store)
    requires Issues(defaultOlt, me, s, commands, t)
    ensures Leads(defaultOlt, s, t)
    decreases |commands|
  {
    ReachesItself(Acts(defaultOlt), Any(), s);
    if commands == [] {
      ReachesMore(Acts(defaultOlt), Any(), NotOf(me), s, s, t);
    } else {
      var mid :| IssuesFirst(defaultOlt, me, s, mid, commands, t);
      var next := Apply(defaultOlt, mid, commands[0]);
      IssuesLeads(defaultOlt, me, next, commands[1..], t);
      ReachesMore(Acts(defaultOlt), Any(), NotOf(me), s, s, mid);
      ReachesNext(Acts(defaultOlt), Any(), s, mid, commands[0], next);
      ReachesThrough(Acts(defaultOlt), Any(), s, next, t);
    }
  }

  // ----- the instance

  class Redis {
    var data: map<string, Cached>
    ghost var saved: set<Save>
    ghost const defaultOlt: string

    ghost function Now(): Store
      reads this
    {
      Store(data, saved)
    }

    ghost predicate Valid()
      reads this
    {
      Coherent(defaultOlt, Now())
    }

    constructor (defaultOlt: string)
      ensures Valid() && Now() == Store(map[], {}) && this.defaultOlt == defaultOlt
    {
      data := map[];
      saved := {};
      this.defaultOlt := defaultOlt;
    }

    /** Other requests of any OLT run for a while, and entries expire. Its callers may rely only on its contract. */
    method Yield(ghost me: nat)
      requires Valid()
      modifies this
      ensures Valid() && OthersLead(defaultOlt, me, old(Now()), Now())
    {
      ReachesItself(Acts(defaultOlt), NotOf(me), Now());
    }

    method Set(ghost me: nat, key: string, value: Cached, ok: bool, ghost olt: string, ghost slot: Slot)
      requires Valid() && Allowed(Put(me, olt, slot, value)) && key == KeyOf(defaultOlt, olt, slot)
      modifies this
      ensures Valid()
      ensures Now() == if ok then Apply(defaultOlt, old(Now()), Put(me, olt, slot, value)) else old(Now())
    {
      if ok {
        CoherentStep(defaultOlt, Now(), Put(me, olt, slot, value));
        data := data[key := value];
        saved := saved + {Save(olt, slot, value)};
      }
    }

    method Delete(ghost me: nat, key: string, ok: bool)
      requires Valid()
      modifies this
      ensures Valid()
      ensures Now() == if ok then Apply(defaultOlt, old(Now()), Del(me, key)) else old(Now())
    {
      if ok {
        CoherentStep(defaultOlt, Now(), Del(me, key));
        data := data - {key};
      }
    }
  }
}

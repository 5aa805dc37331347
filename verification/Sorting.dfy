/** Sorting by a total preorder, as sort.Strings, sort.Ints and sort.Slice promise it:
    the result is an ordered permutation. When no two different elements tie, that result is unique. */
module Sorting {

  ghost predicate Preorder<T(!new)>(leq: (T, T) -> bool) {
    && (forall x, y :: leq(x, y) || leq(y, x))
    && (forall x, y, z :: leq(x, y) && leq(y, z) ==> leq(x, z))
  }

  ghost predicate Sorted<T(!new)>(leq: (T, T) -> bool, s: seq<T>) {
    forall i, j :: 0 <= i < j < |s| ==> leq(s[i], s[j])
  }

  ghost predicate NoTies<T(!new)>(leq: (T, T) -> bool, s: seq<T>) {
    forall x, y :: x in s && y in s && leq(x, y) && leq(y, x) ==> x == y
  }

  /** An ordered permutation; where tied elements end up is not promised. */
  method Sort<T(!new)>(leq: (T, T) -> bool, s: seq<T>) returns (r: seq<T>)
    requires Preorder(leq)
    ensures Sorted(leq, r) && multiset(r) == multiset(s)
  {
    r := [];
    for n := 0 to |s|
      invariant Sorted(leq, r) && multiset(r) == multiset(s[..n])
    {
      var x := s[n];
      var k := 0;
      while k < |r| && leq(r[k], x)
        invariant k <= |r|
        invariant forall i :: 0 <= i < k ==> leq(r[i], x)
      {
        k := k + 1;
      }
      InsertSorted(leq, r, k, x);
      assert r == r[..k] + r[k..];
      assert s[..n + 1] == s[..n] + [x];
      r := r[..k] + [x] + r[k..];
    }
    assert s[..|s|] == s;
  }

  lemma InsertSorted<T(!new)>(leq: (T, T) -> bool, r: seq<T>, k: nat, x: T)
    requires Preorder(leq) && Sorted(leq, r) && k <= |r|
    requires forall i :: 0 <= i < k ==> leq(r[i], x)
    requires k < |r| ==> leq(x, r[k])
    ensures Sorted(leq, r[..k] + [x] + r[k..])
  {
    var t := r[..k] + [x] + r[k..];
    forall i, j | 0 <= i < j < |t| ensures leq(t[i], t[j]) {
      if i == k && j > k + 1 {
        assert leq(r[k], r[j - 1]);
      }
    }
  }

  /** Two ordered permutations of each other without ties are equal. */
  lemma {:induction false} SortedUnique<T(!new)>(leq: (T, T) -> bool, a: seq<T>, b: seq<T>)
    requires Sorted(leq, a) && Sorted(leq, b) && multiset(a) == multiset(b)
    requires NoTies(leq, a)
    requires forall x: T :: leq(x, x)
    ensures a == b
  {
    assert |a| == |multiset(a)| && |b| == |multiset(b)|;
    if a == [] {
    } else {
      SameHead(leq, a, b);
      HeadAndTail(a);
      HeadAndTail(b);
      TailSorted(leq, a);
      TailSorted(leq, b);
      SortedUnique(leq, a[1..], b[1..]);
    }
  }

  lemma HeadAndTail<T>(s: seq<T>)
    requires s != []
    ensures s == [s[0]] + s[1..] && multiset(s[1..]) == multiset(s) - multiset{s[0]}
  {
    assert s == [s[0]] + s[1..];
  }

  lemma TailSorted<T(!new)>(leq: (T, T) -> bool, s: seq<T>)
    requires s != [] && Sorted(leq, s)
    ensures Sorted(leq, s[1..]) && (NoTies(leq, s) ==> NoTies(leq, s[1..]))
  {
    assert forall x :: x in s[1..] ==> x in s;
  }

  lemma SameHead<T(!new)>(leq: (T, T) -> bool, a: seq<T>, b: seq<T>)
    requires Sorted(leq, a) && Sorted(leq, b) && multiset(a) == multiset(b) && a != [] && b != []
    requires NoTies(leq, a)
    requires forall x: T :: leq(x, x)
    ensures a[0] == b[0]
  {
    assert a[0] in multiset(b) && b[0] in multiset(a);
    assert a[0] in b && b[0] in a;
    assert leq(a[0], b[0]) && leq(b[0], a[0]);
  }

  /** A set that is not empty has a member to pick. */
  lemma SomeMember(s: set<int>)
    ensures s == {} || exists k :: k in s
  {
    if forall k: int :: k !in s {
      assert s == {};
    }
  }

  // ----- the orders in use

  function IntLeq(): (int, int) -> bool { (x: int, y: int) => x <= y }

  /** Byte-wise order of strings. */
  predicate StringBefore(a: string, b: string) {
    if a == "" then true
    else if b == "" then false
    else a[0] < b[0] || (a[0] == b[0] && StringBefore(a[1..], b[1..]))
  }

  function StringLeq(): (string, string) -> bool { (a: string, b: string) => StringBefore(a, b) }

  lemma {:induction false} StringTotal(a: string, b: string)
    ensures StringBefore(a, b) || StringBefore(b, a)
    ensures StringBefore(a, b) && StringBefore(b, a) ==> a == b
  {
    if a == "" || b == "" {
    } else {
      StringTotal(a[1..], b[1..]);
      assert a == [a[0]] + a[1..] && b == [b[0]] + b[1..];
    }
  }

  lemma {:induction false} StringTransitive(a: string, b: string, c: string)
    requires StringBefore(a, b) && StringBefore(b, c)
    ensures StringBefore(a, c)
  {
    if a == "" || b == "" || c == "" || a[0] != b[0] || b[0] != c[0] {
    } else {
      StringTransitive(a[1..], b[1..], c[1..]);
    }
  }

  lemma StringOrder()
    ensures Preorder(StringLeq())
    ensures forall s: seq<string> :: NoTies(StringLeq(), s)
  {
    forall a, b ensures StringBefore(a, b) || StringBefore(b, a) {
      StringTotal(a, b);
    }
    forall a, b, c | StringBefore(a, b) && StringBefore(b, c) ensures StringBefore(a, c) {
      StringTransitive(a, b, c);
    }
    forall a, b | StringBefore(a, b) && StringBefore(b, a) ensures a == b {
      StringTotal(a, b);
    }
  }

  ghost predicate IsLeast(x: string, ss: set<string>) {
    x in ss && forall y :: y in ss ==> StringBefore(x, y)
  }

  lemma {:induction false} LeastExists(ss: set<string>)
    requires ss != {}
    ensures exists x :: IsLeast(x, ss)
  {
    var x :| x in ss;
    var rest := ss - {x};
    StringTotal(x, x);
    if rest == {} {
      assert ss == {x};
      assert IsLeast(x, ss);
    } else {
      LeastExists(rest);
      var y :| IsLeast(y, rest);
      var least := if StringBefore(x, y) then x else y;
      forall z | z in ss ensures StringBefore(least, z) {
        StringTotal(x, y);
        if z in rest && StringBefore(x, y) {
          StringTransitive(x, y, z);
        }
      }
      assert IsLeast(least, ss);
    }
  }

  lemma SetWithout<T(!new)>(ss: set<T>, x: T)
    requires x in ss
    ensures multiset(ss) == multiset{x} + multiset(ss - {x})
  {
    var rest := ss - {x};
    forall y ensures multiset(ss)[y] == (multiset{x} + multiset(rest))[y] {
      assert multiset(ss)[y] == if y in ss then 1 else 0;
      assert multiset(rest)[y] == if y in rest then 1 else 0;
    }
  }

  lemma MembersOf<T(!new)>(s: seq<T>, ss: set<T>)
    requires multiset(s) == multiset(ss)
    ensures forall y :: y in s <==> y in ss
  {
    forall y ensures y in s <==> y in ss {
      assert y in s <==> y in multiset(s);
      assert y in ss <==> y in multiset(ss);
    }
  }

  /** The strings of a set in order. */
  ghost function SortedSet(ss: set<string>): (r: seq<string>)
    ensures Sorted(StringLeq(), r) && multiset(r) == multiset(ss)
  {
    if ss == {} then []
    else
      LeastExists(ss);
      var least :| IsLeast(least, ss);
      SetWithout(ss, least);
      var rest := SortedSet(ss - {least});
      MembersOf(rest, ss - {least});
      [least] + rest
  }
}

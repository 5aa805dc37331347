/** The string operations the service relies on: splitting and joining, trimming,
    and decimal numbers as strconv prints and parses them. */
module Text {

  datatype Option<+T> = None | Some(value: T)

  // ----- split and join

  predicate Free(s: string, sep: char) {
    sep !in s
  }

  /** The index of the first sep at or after from, or |s|. */
  function IndexFrom(s: string, sep: char, from: nat): (i: nat)
    requires from <= |s|
    ensures from <= i <= |s|
    ensures Free(s[from..i], sep)
    ensures i < |s| ==> s[i] == sep
    decreases |s| - from
  {
    if from == |s| || s[from] == sep then from
    else
      var i := IndexFrom(s, sep, from + 1);
      assert s[from..i] == [s[from]] + s[from + 1..i];
      i
  }

  function Split(s: string, sep: char): (parts: seq<string>)
    ensures |parts| >= 1
    ensures forall p :: p in parts ==> Free(p, sep)
    decreases |s|
  {
    var i := IndexFrom(s, sep, 0);
    assert s[0..i] == s[..i];
    if i == |s| then [s] else [s[..i]] + Split(s[i + 1..], sep)
  }

  function Join(parts: seq<string>, sep: char): string {
    if parts == [] then ""
    else if |parts| == 1 then parts[0]
    else parts[0] + [sep] + Join(parts[1..], sep)
  }

  lemma IndexOfFirst(s: string, sep: char, a: string, b: string)
    requires s == a + [sep] + b && Free(a, sep)
    ensures IndexFrom(s, sep, 0) == |a|
  {
    assert s[|a|] == sep;
    assert forall k :: 0 <= k < |a| ==> s[k] == a[k];
  }

  /** Text before the first separator is determined by the whole. */
  lemma CutUnique(a: string, b: string, a': string, b': string, sep: char)
    requires a + [sep] + b == a' + [sep] + b' && Free(a, sep) && Free(a', sep)
    ensures a == a' && b == b'
  {
    var s := a + [sep] + b;
    IndexOfFirst(s, sep, a, b);
    IndexOfFirst(s, sep, a', b');
    assert a == s[..|a|] && b == s[|a| + 1..];
    assert a' == s[..|a'|] && b' == s[|a'| + 1..];
  }

  lemma SplitFirst(a: string, b: string, sep: char)
    requires Free(a, sep)
    ensures Split(a + [sep] + b, sep) == [a] + Split(b, sep)
  {
    var s := a + [sep] + b;
    IndexOfFirst(s, sep, a, b);
    assert s[..|a|] == a && s[|a| + 1..] == b;
  }

  lemma SplitFree(a: string, sep: char)
    requires Free(a, sep)
    ensures Split(a, sep) == [a]
  {
  }

  lemma {:induction false} SplitOfJoin(parts: seq<string>, sep: char)
    requires parts != [] && forall p :: p in parts ==> Free(p, sep)
    ensures Split(Join(parts, sep), sep) == parts
  {
    if |parts| == 1 {
      SplitFree(parts[0], sep);
    } else {
      SplitFirst(parts[0], Join(parts[1..], sep), sep);
      SplitOfJoin(parts[1..], sep);
    }
  }

  /** Splitting joined lines gives the pieces of every line in order. */
  lemma {:induction false} SplitConcat(a: string, b: string, sep: char)
    ensures Split(a + [sep] + b, sep) == Split(a, sep) + Split(b, sep)
    decreases |a|
  {
    if Free(a, sep) {
      SplitFree(a, sep);
      SplitFirst(a, b, sep);
    } else {
      var head, rest := CutAtFirst(a, sep);
      SplitConcat(rest, b, sep);
      SplitConcatAt(head, rest, b, sep);
    }
  }

  lemma SplitConcatAt(head: string, rest: string, b: string, sep: char)
    requires Free(head, sep) && Split(rest + [sep] + b, sep) == Split(rest, sep) + Split(b, sep)
    ensures Split(head + [sep] + rest + [sep] + b, sep) == Split(head + [sep] + rest, sep) + Split(b, sep)
  {
    SplitFirst(head, rest, sep);
    SplitFirst(head, rest + [sep] + b, sep);
    Regrouped(head, rest, b, sep);
    ConsConcat(head, Split(rest, sep), Split(b, sep));
  }

  lemma Regrouped(head: string, rest: string, b: string, sep: char)
    ensures head + [sep] + rest + [sep] + b == head + [sep] + (rest + [sep] + b)
  {
  }

  lemma ConsConcat<T>(first: T, rest: seq<T>, more: seq<T>)
    ensures [first] + rest + more == [first] + (rest + more)
  {
  }

  lemma CutAtFirst(s: string, sep: char) returns (head: string, rest: string)
    requires !Free(s, sep)
    ensures s == head + [sep] + rest && Free(head, sep)
  {
    var i := IndexFrom(s, sep, 0);
    assert s[0..i] == s[..i] && s[..|s|] == s;
    head, rest := s[..i], s[i + 1..];
  }

  /** The pieces of every line, in order. */
  function SplitAll(lines: seq<string>, sep: char): seq<string> {
    if lines == [] then [] else Split(lines[0], sep) + SplitAll(lines[1..], sep)
  }

  lemma SplitAllCons(line: string, lines: seq<string>, sep: char)
    ensures SplitAll([line] + lines, sep) == Split(line, sep) + SplitAll(lines, sep)
  {
    assert ([line] + lines)[1..] == lines;
  }

  lemma {:induction false} SplitOfJoinedLines(lines: seq<string>, sep: char)
    requires lines != []
    ensures Split(Join(lines, sep), sep) == SplitAll(lines, sep)
  {
    if |lines| > 1 {
      SplitConcat(lines[0], Join(lines[1..], sep), sep);
      SplitOfJoinedLines(lines[1..], sep);
    } else {
      assert SplitAll(lines[1..], sep) == [];
    }
  }

  lemma JoinCons(first: string, rest: seq<string>, sep: char)
    requires rest != []
    ensures Join([first] + rest, sep) == first + [sep] + Join(rest, sep)
  {
    assert ([first] + rest)[1..] == rest;
  }

  lemma {:induction false} JoinOfSplit(s: string, sep: char)
    ensures Join(Split(s, sep), sep) == s
    decreases |s|
  {
    if Free(s, sep) {
      SplitFree(s, sep);
    } else {
      var head, rest := CutAtFirst(s, sep);
      JoinOfSplit(rest, sep);
      SplitFirst(head, rest, sep);
      JoinCons(head, Split(rest, sep), sep);
    }
  }

  lemma SplitInjective(s: string, t: string, sep: char)
    requires Split(s, sep) == Split(t, sep)
    ensures s == t
  {
    JoinOfSplit(s, sep);
    JoinOfSplit(t, sep);
  }

  // ----- trimming

  /** Unicode White_Space, as strings.TrimSpace uses it. */
  predicate IsSpace(c: char) {
    || c == ' ' || '\t' <= c <= '\r'
    || c == '\U{0085}' || c == '\U{00A0}' || c == '\U{1680}' || '\U{2000}' <= c <= '\U{200A}'
    || c == '\U{2028}' || c == '\U{2029}' || c == '\U{202F}' || c == '\U{205F}' || c == '\U{3000}'
  }

  function TrimSpace(s: string): (t: string)
    ensures |t| <= |s|
    ensures t != "" ==> !IsSpace(t[0]) && !IsSpace(t[|t| - 1])
    decreases |s|
  {
    if s == "" then ""
    else if IsSpace(s[0]) then TrimSpace(s[1..])
    else if IsSpace(s[|s| - 1]) then TrimSpace(s[..|s| - 1])
    else s
  }

  predicate AllSpace(s: string) {
    forall c :: c in s ==> IsSpace(c)
  }

  /** Outside s[i..j] there is only white space. */
  ghost predicate Outside(s: string, i: int, j: int) {
    0 <= i <= j <= |s| && forall k :: 0 <= k < i || j <= k < |s| ==> IsSpace(s[k])
  }

  lemma OutsideFront(s: string, i: nat, j: nat)
    requires s != "" && IsSpace(s[0]) && Outside(s[1..], i, j)
    ensures Outside(s, i + 1, j + 1) && s[1..][i..j] == s[i + 1..j + 1]
  {
    assert forall k :: 1 <= k < |s| ==> s[k] == s[1..][k - 1];
  }

  lemma OutsideBack(s: string, i: nat, j: nat)
    requires s != "" && IsSpace(s[|s| - 1]) && Outside(s[..|s| - 1], i, j)
    ensures Outside(s, i, j) && s[..|s| - 1][i..j] == s[i..j]
  {
    assert forall k :: 0 <= k < |s| - 1 ==> s[k] == s[..|s| - 1][k];
  }

  /** TrimSpace cuts off white space in front and behind, and nothing else. */
  lemma {:induction false} TrimSpaceCuts(s: string) returns (i: nat, j: nat)
    ensures Outside(s, i, j) && TrimSpace(s) == s[i..j]
    decreases |s|
  {
    if s == "" {
      i, j := 0, 0;
    } else if IsSpace(s[0]) {
      i, j := TrimSpaceCuts(s[1..]);
      OutsideFront(s, i, j);
      i, j := i + 1, j + 1;
    } else if IsSpace(s[|s| - 1]) {
      i, j := TrimSpaceCuts(s[..|s| - 1]);
      OutsideBack(s, i, j);
    } else {
      i, j := 0, |s|;
    }
  }

  /** Text without white space is left alone. */
  lemma TrimNothing(s: string)
    requires forall c :: c in s ==> !IsSpace(c)
    ensures TrimSpace(s) == s
  {
    if s != "" {
      assert s[0] in s && s[|s| - 1] in s;
    }
  }

  function TrimPrefix(s: string, prefix: string): string {
    if prefix <= s then s[|prefix|..] else s
  }

  lemma TrimOwnPrefix(prefix: string, rest: string)
    ensures TrimPrefix(prefix + rest, prefix) == rest
    ensures !(prefix <= rest) ==> TrimPrefix(rest, prefix) == rest
  {
  }

  // ----- decimal numbers

  const MAX_INT64: int := 0x7FFF_FFFF_FFFF_FFFF
  const MIN_INT64: int := -0x8000_0000_0000_0000

  predicate IsInt64(n: int) {
    MIN_INT64 <= n <= MAX_INT64
  }

  predicate IsDigit(c: char) {
    '0' <= c <= '9'
  }

  predicate AllDigits(s: string) {
    forall i :: 0 <= i < |s| ==> IsDigit(s[i])
  }

  function DigitChar(d: nat): (c: char)
    requires d < 10
    ensures IsDigit(c) && DigitValue(c) == d
  {
    '0' + (d as char)
  }

  function DigitValue(c: char): nat
    requires IsDigit(c)
  {
    (c as int) - ('0' as int)
  }

  function Digits(n: nat): (s: string)
    ensures s != "" && AllDigits(s)
    ensures Value(s) == n
  {
    if n < 10 then
      assert [DigitChar(n)][..0] == "";
      [DigitChar(n)]
    else
      var s := Digits(n / 10) + [DigitChar(n % 10)];
      assert s[..|s| - 1] == Digits(n / 10);
      s
  }

  function Value(s: string): int
    requires AllDigits(s)
  {
    if s == "" then 0 else Value(s[..|s| - 1]) * 10 + DigitValue(s[|s| - 1])
  }

  /** strconv.Itoa and the %d verb. */
  function Itoa(n: int): string {
    if n < 0 then "-" + Digits(-n) else Digits(n)
  }

  /** The number a decimal text denotes, without a size limit: an optional sign, then digits. */
  function ParseInt(s: string): Option<int> {
    if s == "" then None
    else if s[0] == '-' || s[0] == '+' then
      if |s| == 1 || !AllDigits(s[1..]) then None
      else Some(if s[0] == '-' then -Value(s[1..]) else Value(s[1..]))
    else if AllDigits(s) then Some(Value(s)) else None
  }

  /** strconv.Atoi: decimal text of a 64-bit integer. */
  function Atoi(s: string): Option<int> {
    match ParseInt(s)
    case None => None
    case Some(n) => if IsInt64(n) then Some(n) else None
  }

  lemma ParseOfItoa(n: int)
    ensures ParseInt(Itoa(n)) == Some(n)
    ensures IsInt64(n) ==> Atoi(Itoa(n)) == Some(n)
  {
    if n < 0 {
      assert Itoa(n)[1..] == Digits(-n);
    } else {
      assert IsDigit(Digits(n)[0]);
    }
  }

  /** What Atoi reads is an optional sign and then digits, and fits 64 bits. */
  lemma AtoiShape(s: string)
    ensures Atoi(s).Some? ==>
      && s != "" && (IsDigit(s[0]) || ((s[0] == '-' || s[0] == '+') && |s| > 1)) && AllDigits(s[1..])
      && IsInt64(Atoi(s).value) && (Atoi(s).value < 0 ==> s[0] == '-')
  {
    if s != "" && AllDigits(s) {
      assert forall i :: 0 <= i < |s| - 1 ==> s[1..][i] == s[i + 1];
    }
    if AllDigits(s) {
      ValueNotNegative(s);
    }
    if s != "" && AllDigits(s[1..]) {
      ValueNotNegative(s[1..]);
    }
  }

  lemma {:induction false} ValueNotNegative(s: string)
    requires AllDigits(s)
    ensures Value(s) >= 0
    decreases |s|
  {
    if s == "" {
    } else {
      ValueNotNegative(s[..|s| - 1]);
    }
  }

  lemma ItoaInjective(n: int, m: int)
    requires Itoa(n) == Itoa(m)
    ensures n == m
  {
    ParseOfItoa(n);
    ParseOfItoa(m);
  }

  /** Printed numbers contain digits and, only in front, a minus sign. */
  lemma ItoaShape(n: int)
    ensures Itoa(n) != "" && (IsDigit(Itoa(n)[0]) || Itoa(n)[0] == '-') && AllDigits(Itoa(n)[1..])
    ensures forall c :: c in Itoa(n) ==> IsDigit(c) || c == '-'
    ensures n >= 0 ==> AllDigits(Itoa(n))
  {
    if n < 0 {
      assert Itoa(n)[1..] == Digits(-n);
    }
  }

  lemma ItoaHasNo(n: int, c: char)
    requires !IsDigit(c) && c != '-'
    ensures Free(Itoa(n), c)
  {
    ItoaShape(n);
  }
}

/** Vocabulary shared by the models: options, lexicographic order, slash-separated text, little-endian numbers. */
module Basics {

  datatype Option<+T> = None | Some(value: T)

  predicate EndsWith(s: string, suffix: string) {
    |suffix| <= |s| && s[|s| - |suffix|..] == suffix
  }

  predicate LexLess(a: string, b: string) {
    if b == [] then false
    else if a == [] then true
    else if a[0] != b[0] then a[0] < b[0]
    else LexLess(a[1..], b[1..])
  }

  lemma {:induction false} LexTotal(a: string, b: string)
    ensures !(LexLess(a, b) && LexLess(b, a)) && (a != b ==> LexLess(a, b) || LexLess(b, a)) && !LexLess(a, a)
    decreases |a|
  {
    if a != [] {
      LexTotal(a[1..], a[1..]);
      if b != [] && a[0] == b[0] {
        LexTotal(a[1..], b[1..]);
        assert a == [a[0]] + a[1..] && b == [b[0]] + b[1..];
      }
    }
  }

  lemma {:induction false} LexTransitive(a: string, b: string, c: string)
    requires LexLess(a, b) && LexLess(b, c)
    ensures LexLess(a, c)
    decreases |a|
  {
    if a != [] && a[0] == b[0] && b[0] == c[0] {
      LexTransitive(a[1..], b[1..], c[1..]);
    }
  }

  // ----- sorted(items, key=...) -----

  function InsertBy<T>(key: T -> string, x: T, s: seq<T>): seq<T> {
    if s == [] || !LexLess(key(s[0]), key(x)) then [x] + s else [s[0]] + InsertBy(key, x, s[1..])
  }

  function SortBy<T>(key: T -> string, s: seq<T>): seq<T> {
    if s == [] then [] else InsertBy(key, s[0], SortBy(key, s[1..]))
  }

  predicate OrderedBy<T>(key: T -> string, s: seq<T>) {
    forall i, j :: 0 <= i < j < |s| ==> !LexLess(key(s[j]), key(s[i]))
  }

  /** In order and without equal keys. */
  predicate StrictBy<T>(key: T -> string, s: seq<T>) {
    forall i, j :: 0 <= i < j < |s| ==> LexLess(key(s[i]), key(s[j]))
  }

  predicate DistinctBy<T>(key: T -> string, s: seq<T>) {
    forall i, j :: 0 <= i < j < |s| ==> key(s[i]) != key(s[j])
  }

  lemma {:induction false} InsertKeeps<T(!new)>(key: T -> string, x: T, s: seq<T>)
    ensures multiset(InsertBy(key, x, s)) == multiset{x} + multiset(s)
    ensures |InsertBy(key, x, s)| == |s| + 1
    ensures forall y :: y in InsertBy(key, x, s) <==> y == x || y in s
  {
    hide LexLess;
    if s != [] {
      InsertKeeps(key, x, s[1..]);
      assert s == [s[0]] + s[1..];
    }
  }

  lemma OrderedCons<T(!new)>(key: T -> string, x: T, s: seq<T>)
    ensures OrderedBy(key, [x] + s) <==> OrderedBy(key, s) && forall y :: y in s ==> !LexLess(key(y), key(x))
  {
    hide LexLess;
    var all := [x] + s;
    assert s == all[1..];
    if OrderedBy(key, all) {
      forall y | y in s ensures !LexLess(key(y), key(x)) {
        var i :| 0 <= i < |s| && s[i] == y;
        assert all[i + 1] == y && all[0] == x;
      }
    }
  }

  lemma {:induction false} InsertOrders<T(!new)>(key: T -> string, x: T, s: seq<T>)
    requires OrderedBy(key, s)
    ensures OrderedBy(key, InsertBy(key, x, s))
  {
    hide LexLess, OrderedBy;
    if s == [] {
      OrderedCons(key, x, s);
    } else {
      var rest := s[1..];
      assert s == [s[0]] + rest;
      OrderedCons(key, s[0], rest);
      if LexLess(key(s[0]), key(x)) {
        LexTotal(key(s[0]), key(x));
        InsertOrders(key, x, rest);
        InsertKeeps(key, x, rest);
        var more := InsertBy(key, x, rest);
        forall y | y in more ensures !LexLess(key(y), key(s[0])) {
          assert y == x || y in rest;
        }
        OrderedCons(key, s[0], more);
      } else {
        forall y | y in s && LexLess(key(y), key(x)) ensures LexLess(key(y), key(s[0])) {
          LexBelow(key(s[0]), key(x), key(y));
        }
        LexTotal(key(s[0]), key(s[0]));
        OrderedCons(key, x, s);
      }
    }
  }

  lemma LexBelow(a: string, b: string, c: string)
    requires !LexLess(a, b) && LexLess(c, b)
    ensures LexLess(c, a)
  {
  }

  lemma OrderedNone<T(!new)>(key: T -> string)
    ensures OrderedBy(key, [])
  {
  }

  lemma {:induction false} SortOrders<T(!new)>(key: T -> string, s: seq<T>)
    ensures OrderedBy(key, SortBy(key, s)) && multiset(SortBy(key, s)) == multiset(s)
    ensures |SortBy(key, s)| == |s| && forall x :: x in SortBy(key, s) <==> x in s
  {
    hide OrderedBy, InsertBy;
    if s == [] {
      OrderedNone(key);
    } else {
      SortOrders(key, s[1..]);
      InsertOrders(key, s[0], SortBy(key, s[1..]));
      InsertKeeps(key, s[0], SortBy(key, s[1..]));
      assert s == [s[0]] + s[1..];
    }
  }

  /** Sorting items with distinct keys gives a strict order, and a strictly ordered list is left as it is. */
  lemma SortStrict<T(!new)>(key: T -> string, s: seq<T>)
    requires DistinctBy(key, s)
    ensures StrictBy(key, SortBy(key, s))
  {
    hide LexLess, SortBy;
    var t := SortBy(key, s);
    SortOrders(key, s);
    forall i, j | 0 <= i < j < |t| ensures LexLess(key(t[i]), key(t[j])) {
      if key(t[i]) == key(t[j]) {
        SameKeyTwice(key, s, t, i, j);
      }
      LexTotal(key(t[i]), key(t[j]));
    }
  }

  lemma SameKeyTwice<T(!new)>(key: T -> string, s: seq<T>, t: seq<T>, i: nat, j: nat)
    requires multiset(s) == multiset(t) && i < j < |t| && key(t[i]) == key(t[j])
    ensures !DistinctBy(key, s)
  {
    assert t == t[..i] + [t[i]] + t[i + 1..j] + [t[j]] + t[j + 1..];
    assert multiset(t)[t[i]] >= 1 && multiset(t)[t[j]] >= 1 && (t[i] == t[j] ==> multiset(t)[t[i]] >= 2);
    var a := FindOne(s, t[i]);
    if t[i] == t[j] {
      var rest := s[..a] + s[a + 1..];
      assert s == s[..a] + [s[a]] + s[a + 1..];
      assert multiset(rest)[t[j]] >= 1;
      var b := FindOne(rest, t[j]);
      assert b < a ==> s[b] == t[j];
      assert b >= a ==> s[b + 1] == t[j];
    } else {
      var b := FindOne(s, t[j]);
      assert s[a] == t[i] && s[b] == t[j];
    }
  }

  lemma FindOne<T(!new)>(s: seq<T>, x: T) returns (i: nat)
    requires multiset(s)[x] >= 1
    ensures i < |s| && s[i] == x
  {
    assert x in multiset(s);
    assert x in s;
    i :| 0 <= i < |s| && s[i] == x;
  }

  lemma {:induction false} StrictSorted<T(!new)>(key: T -> string, s: seq<T>)
    requires StrictBy(key, s)
    ensures SortBy(key, s) == s && DistinctBy(key, s)
  {
    forall i, j | 0 <= i < j < |s| ensures key(s[i]) != key(s[j]) {
      LexTotal(key(s[i]), key(s[j]));
    }
    if s != [] {
      StrictSorted(key, s[1..]);
      if |s| > 1 {
        assert s[1..][0] == s[1];
        LexTotal(key(s[0]), key(s[1]));
      }
      assert s == [s[0]] + s[1..];
    }
  }

  // ----- Slash-separated text -----

  function Join(parts: seq<string>): string
    requires parts != []
  {
    if |parts| == 1 then parts[0] else parts[0] + "/" + Join(parts[1..])
  }

  /** bytes.split(b"/") */
  function Split(s: string): (parts: seq<string>)
    ensures parts != []
  {
    if s == [] then [[]]
    else if s[0] == '/' then [[]] + Split(s[1..])
    else
      var rest := Split(s[1..]);
      [[s[0]] + rest[0]] + rest[1..]
  }

  predicate Plain(s: string) { '/' !in s && '\n' !in s }

  lemma {:induction false} SplitPlain(s: string, rest: string)
    requires '/' !in s
    ensures Split(s + "/" + rest) == [s] + Split(rest) && Split(s) == [s]
  {
    if s == [] {
      assert s + "/" + rest == "/" + rest && ("/" + rest)[1..] == rest;
    } else {
      SplitPlain(s[1..], rest);
      assert (s + "/" + rest)[1..] == s[1..] + "/" + rest;
      assert [s[0]] + s[1..] == s;
    }
  }

  lemma {:induction false} SplitJoin(parts: seq<string>)
    requires parts != [] && forall i :: 0 <= i < |parts| ==> Plain(parts[i])
    ensures Split(Join(parts)) == parts && '\n' !in Join(parts)
  {
    if |parts| == 1 {
      SplitPlain(parts[0], []);
    } else {
      SplitJoin(parts[1..]);
      SplitPlain(parts[0], Join(parts[1..]));
      assert parts == [parts[0]] + parts[1..];
    }
  }

  // ----- Little-endian numbers -----

  type Byte = b: int | 0 <= b < 256
  type Bytes = seq<Byte>

  const TWO64: nat := 0x1_0000_0000_0000_0000

  function LittleEndian(n: nat, width: nat): (b: Bytes)
    ensures |b| == width
  {
    if width == 0 then [] else [n % 256] + LittleEndian(n / 256, width - 1)
  }

  function Value(b: Bytes): nat {
    if b == [] then 0 else b[0] + 256 * Value(b[1..])
  }

  function Power(width: nat): nat { if width == 0 then 1 else 256 * Power(width - 1) }

  lemma {:induction false} ValueOfLittleEndian(n: nat, width: nat)
    requires n < Power(width)
    ensures Value(LittleEndian(n, width)) == n
  {
    if width > 0 {
      ValueOfLittleEndian(n / 256, width - 1);
      assert LittleEndian(n, width)[1..] == LittleEndian(n / 256, width - 1);
    }
  }

  lemma {:induction false} LittleEndianOfValue(b: Bytes)
    ensures LittleEndian(Value(b), |b|) == b && Value(b) < Power(|b|)
  {
    if b != [] {
      LittleEndianOfValue(b[1..]);
      assert Value(b) % 256 == b[0] && Value(b) / 256 == Value(b[1..]);
      assert b == [b[0]] + b[1..];
    }
  }

  lemma Power8()
    ensures Power(8) == TWO64
  {
  }
}

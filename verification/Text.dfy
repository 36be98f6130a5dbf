/**
 The string operations the operator relies on. A Go string is a byte string: here every
 `char` stands for one byte, so `|s|` is Go's `len(s)` and `<` on characters is byte order.
 */
module Text {

  datatype Option<+T> = None | Some(value: T)

  // --- Searching ---------------------------------------------------------------------------

  /** First item that begins with `prefix`, or the empty string. */
  function FindItem(prefix: string, args: seq<string>): string {
    if args == [] then ""
    else if prefix <= args[0] then args[0]
    else FindItem(prefix, args[1..])
  }

  /** Whatever the order of `args`, an item that is the only one with the prefix is found. */
  lemma {:induction false} FindItemUnique(prefix: string, args: seq<string>, a: string)
    requires a in args && prefix <= a
    requires forall b :: b in args && prefix <= b ==> b == a
    ensures FindItem(prefix, args) == a
  {
    assert args[0] in args;
    if !(prefix <= args[0]) {
      assert a in args[1..];
      forall b | b in args[1..] && prefix <= b ensures b == a { assert b in args; }
      FindItemUnique(prefix, args[1..], a);
    }
  }

  lemma {:induction false} FindItemFound(prefix: string, args: seq<string>)
    requires exists a :: a in args && prefix <= a
    ensures FindItem(prefix, args) in args && prefix <= FindItem(prefix, args)
  {
    if !(prefix <= args[0]) {
      var a :| a in args && prefix <= a;
      assert a in args[1..];
      FindItemFound(prefix, args[1..]);
    }
  }

  lemma {:induction false} FindItemAbsent(prefix: string, args: seq<string>)
    requires forall a :: a in args ==> !(prefix <= a)
    ensures FindItem(prefix, args) == ""
  {
    if args != [] {
      assert args[0] in args;
      forall a | a in args[1..] ensures !(prefix <= a) { assert a in args; }
      FindItemAbsent(prefix, args[1..]);
    }
  }

  lemma {:induction false} FindItemConcat(prefix: string, a: seq<string>, b: seq<string>)
    requires prefix != ""
    ensures FindItem(prefix, a + b) == if FindItem(prefix, a) != "" then FindItem(prefix, a) else FindItem(prefix, b)
  {
    if a == [] {
      assert a + b == b;
    } else {
      assert (a + b)[1..] == a[1..] + b;
      FindItemConcat(prefix, a[1..], b);
    }
  }

  /** Position of the first `c`, as strings.Index for a one-byte needle. */
  function IndexOf(s: string, c: char): (i: nat)
    requires c in s
    ensures i < |s| && s[i] == c && c !in s[..i]
  {
    if s[0] == c then 0 else 1 + IndexOf(s[1..], c)
  }

  lemma IndexOfIs(s: string, c: char, i: nat)
    requires i < |s| && s[i] == c && c !in s[..i]
    ensures c in s && IndexOf(s, c) == i
  {
    assert s[IndexOf(s, c)] == c;
  }

  /** strings.Contains */
  predicate Contains(s: string, sub: string) {
    sub <= s || (s != "" && Contains(s[1..], sub))
  }

  // --- Splitting and joining ---------------------------------------------------------------

  function Split(s: string, sep: char): (parts: seq<string>)
    ensures |parts| >= 1
  {
    if sep !in s then [s]
    else
      var i := IndexOf(s, sep);
      [s[..i]] + Split(s[i + 1..], sep)
  }

  function Join(parts: seq<string>, sep: char): string {
    if parts == [] then ""
    else if |parts| == 1 then parts[0]
    else parts[0] + [sep] + Join(parts[1..], sep)
  }

  /** No part of a split holds the separator. */
  lemma {:induction false} SplitParts(s: string, sep: char)
    ensures forall p :: p in Split(s, sep) ==> sep !in p
    decreases |s|
  {
    if sep in s {
      SplitParts(s[IndexOf(s, sep) + 1..], sep);
    }
  }

  lemma {:induction false} SplitJoin(parts: seq<string>, sep: char)
    requires parts != []
    requires forall p :: p in parts ==> sep !in p
    ensures Split(Join(parts, sep), sep) == parts
  {
    if |parts| == 1 {
    } else {
      var rest := Join(parts[1..], sep);
      var s := parts[0] + [sep] + rest;
      assert s[|parts[0]|] == sep && s[..|parts[0]|] == parts[0];
      IndexOfIs(s, sep, |parts[0]|);
      assert s[|parts[0]| + 1..] == rest;
      SplitJoin(parts[1..], sep);
    }
  }

  // --- Case --------------------------------------------------------------------------------

  predicate IsLower(c: char) { 'a' <= c <= 'z' }
  predicate IsUpper(c: char) { 'A' <= c <= 'Z' }
  predicate IsDigit(c: char) { '0' <= c <= '9' }
  predicate IsAlnum(c: char) { IsLower(c) || IsUpper(c) || IsDigit(c) }

  function LowerChar(c: char): char {
    if IsUpper(c) then (c as int + 32) as char else c
  }

  function ToLower(s: string): (r: string)
    ensures |r| == |s|
    ensures forall i :: 0 <= i < |s| ==> r[i] == LowerChar(s[i])
  {
    seq(|s|, i requires 0 <= i < |s| => LowerChar(s[i]))
  }

  /** strings.EqualFold on ASCII strings */
  predicate EqualFold(a: string, b: string) { ToLower(a) == ToLower(b) }

  /** `a` is the capital of the letter `b`. */
  predicate IsCapitalOf(a: char, b: char) { 'A' <= a <= 'Z' && b as int - 'a' as int == a as int - 'A' as int }

  /** Letter by letter, the strings differ in case only. */
  lemma EqualFoldSays(a: string, b: string)
    ensures EqualFold(a, b) <==>
              && |a| == |b|
              && forall i :: 0 <= i < |a| ==> a[i] == b[i] || IsCapitalOf(a[i], b[i]) || IsCapitalOf(b[i], a[i])
  {
    assert |a| == |b| && EqualFold(a, b) ==> forall i :: 0 <= i < |a| ==> ToLower(a)[i] == ToLower(b)[i];
  }

  // --- Byte order and sort.Strings ---------------------------------------------------------

  predicate Leq(a: string, b: string) {
    a == "" || (b != "" && (a[0] < b[0] || (a[0] == b[0] && Leq(a[1..], b[1..]))))
  }

  lemma {:induction false} LeqTotal(a: string, b: string)
    ensures Leq(a, b) || Leq(b, a)
  {
    if a != "" && b != "" && a[0] == b[0] { LeqTotal(a[1..], b[1..]); }
  }

  lemma {:induction false} LeqAntisymmetric(a: string, b: string)
    requires Leq(a, b) && Leq(b, a)
    ensures a == b
  {
    if a != "" {
      LeqAntisymmetric(a[1..], b[1..]);
      assert a == [a[0]] + a[1..] && b == [b[0]] + b[1..];
    }
  }

  lemma {:induction false} LeqTransitive(a: string, b: string, c: string)
    requires Leq(a, b) && Leq(b, c)
    ensures Leq(a, c)
  {
    if a != "" && a[0] == b[0] == c[0] { LeqTransitive(a[1..], b[1..], c[1..]); }
  }

  ghost predicate Sorted(s: seq<string>) {
    forall i, j :: 0 <= i < j < |s| ==> Leq(s[i], s[j])
  }

  function Insert(x: string, s: seq<string>): seq<string> {
    if s == [] then [x]
    else if Leq(x, s[0]) then [x] + s
    else [s[0]] + Insert(x, s[1..])
  }

  /** sort.Strings as a value: the sorted permutation (unique by SortedUnique). */
  function Sort(s: seq<string>): seq<string> {
    if s == [] then [] else Insert(s[0], Sort(s[1..]))
  }

  lemma {:induction false} InsertSorted(x: string, s: seq<string>)
    requires Sorted(s)
    ensures Sorted(Insert(x, s)) && multiset(Insert(x, s)) == multiset(s) + multiset{x}
  {
    if s == [] {
    } else if Leq(x, s[0]) {
      forall j | 0 <= j < |s| ensures Leq(x, s[j]) {
        if j > 0 { LeqTransitive(x, s[0], s[j]); }
      }
    } else {
      LeqTotal(x, s[0]);
      InsertSorted(x, s[1..]);
      var r := Insert(x, s[1..]);
      assert s == [s[0]] + s[1..];
      forall j | 0 <= j < |r| ensures Leq(s[0], r[j]) {
        assert r[j] in multiset(r);
        assert r[j] == x || r[j] in s[1..];
      }
    }
  }

  lemma {:induction false} SortCorrect(s: seq<string>)
    ensures Sorted(Sort(s)) && multiset(Sort(s)) == multiset(s)
  {
    if s != [] {
      SortCorrect(s[1..]);
      InsertSorted(s[0], Sort(s[1..]));
      assert s == [s[0]] + s[1..];
    }
  }

  /** Equal bags of strings that are both sorted have the same least element. */
  lemma SortedHead(a: seq<string>, b: seq<string>)
    requires a != [] && Sorted(a) && Sorted(b) && multiset(a) == multiset(b)
    ensures b != [] && a[0] == b[0]
  {
    assert a[0] in multiset(b);
    var i :| 0 <= i < |b| && b[i] == a[0];
    assert b[0] in multiset(a);
    var j :| 0 <= j < |a| && a[j] == b[0];
    LeqRefl(a[0]);
    assert Leq(b[0], a[0]) && Leq(a[0], b[0]);
    LeqAntisymmetric(a[0], b[0]);
  }

  lemma TailBag(a: seq<string>)
    requires a != []
    ensures multiset(a[1..]) == multiset(a) - multiset{a[0]}
    ensures Sorted(a) ==> Sorted(a[1..])
  {
    assert a == [a[0]] + a[1..];
  }

  /** A sorted sequence is determined by its elements, so sorting forgets the input order. */
  lemma {:induction false} SortedUnique(a: seq<string>, b: seq<string>)
    requires Sorted(a) && Sorted(b) && multiset(a) == multiset(b)
    ensures a == b
  {
    if a == [] {
      assert |multiset(b)| == 0;
    } else {
      SortedHead(a, b);
      TailBag(a);
      TailBag(b);
      SortedUnique(a[1..], b[1..]);
      assert a == [a[0]] + a[1..] && b == [b[0]] + b[1..];
    }
  }

  lemma LeqRefl(a: string)
    ensures Leq(a, a)
  {
    LeqTotal(a, a);
  }

  lemma SortOfPermutation(a: seq<string>, b: seq<string>)
    requires multiset(a) == multiset(b)
    ensures Sort(a) == Sort(b)
  {
    SortCorrect(a);
    SortCorrect(b);
    SortedUnique(Sort(a), Sort(b));
  }

  // --- strconv -----------------------------------------------------------------------------

  predicate Digits(s: string) { forall i :: 0 <= i < |s| ==> IsDigit(s[i]) }

  function DigitsValue(s: string): nat
    requires Digits(s)
  {
    if s == "" then 0
    else 10 * DigitsValue(s[..|s| - 1]) + (s[|s| - 1] as int - '0' as int)
  }

  /** strconv.ParseInt(s, 10, 32): optional sign, decimal digits, 32-bit range. */
  function ParseInt32(s: string): (r: Option<int>)
    ensures r.Some? ==> -0x8000_0000 <= r.value < 0x8000_0000
  {
    var neg := s != "" && s[0] == '-';
    var body := if s != "" && (s[0] == '-' || s[0] == '+') then s[1..] else s;
    if body == "" || !Digits(body) then None
    else
      var d: int := DigitsValue(body);
      var v := if neg then -d else d;
      if -0x8000_0000 <= v < 0x8000_0000 then Some(v) else None
  }
}

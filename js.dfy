/**
 * The slice of JavaScript semantics that the front end relies on:
 * truthiness, strict and loose equality, Number()/String() coercion,
 * parseInt, Array.prototype.includes and the string helpers used by the
 * pages (case mapping, trim, substring search, prefix tests, digit filters).
 *
 * Numbers are integers: fractional numbers, NaN-producing arithmetic and
 * floating-point rounding are outside this model. NaN itself appears only
 * as the `None` result of `ToNumber`.
 */
module Js {

  datatype Option<T> = None | Some(value: T)

  /** A JavaScript value as it reaches the front end's logic. */
  datatype Value =
    | Undefined
    | Null
    | Bool(b: bool)
    | Num(n: int)
    | Str(s: string)
    | Arr(items: seq<Value>)

  // ---------------------------------------------------------------------
  // Truthiness

  /** `!!v`: undefined, null, false, 0 and '' are falsy; arrays are truthy. */
  predicate Truthy(v: Value)
  {
    match v
    case Undefined => false
    case Null => false
    case Bool(b) => b
    case Num(n) => n != 0
    case Str(s) => s != ""
    case Arr(_) => true
  }

  /** `a || b` on two values. */
  function Or(a: Value, b: Value): (r: Value)
    ensures Truthy(a) ==> r == a
    ensures !Truthy(a) ==> r == b
  {
    if Truthy(a) then a else b
  }

  /** `a ?? b`: only undefined and null fall back. */
  function Coalesce(a: Value, b: Value): (r: Value)
    ensures (a.Undefined? || a.Null?) ==> r == b
    ensures !(a.Undefined? || a.Null?) ==> r == a
  {
    if a.Undefined? || a.Null? then b else a
  }

  /** `s || d` on a string: the empty string falls back. */
  function OrStr(s: string, d: string): (r: string)
    ensures s != "" ==> r == s
    ensures s == "" ==> r == d
  {
    if s != "" then s else d
  }

  // ---------------------------------------------------------------------
  // Decimal digits and integer <-> string

  predicate IsDigit(c: char) { '0' <= c <= '9' }

  function DigitValue(c: char): (d: nat)
    requires IsDigit(c)
    ensures d < 10
  {
    (c as int) - ('0' as int)
  }

  function DigitChar(d: nat): (c: char)
    requires d < 10
    ensures IsDigit(c) && DigitValue(c) == d
  {
    (('0' as int) + d) as char
  }

  predicate AllDigits(s: string)
  {
    forall i :: 0 <= i < |s| ==> IsDigit(s[i])
  }

  /** The value of a non-empty run of decimal digits. */
  function DigitsValue(s: string): (n: nat)
    requires AllDigits(s)
  {
    if s == [] then 0 else 10 * DigitsValue(s[..|s| - 1]) + DigitValue(s[|s| - 1])
  }

  /** The shortest decimal numeral of `n` (no leading zeros). */
  function NatToString(n: nat): (s: string)
    ensures |s| >= 1 && AllDigits(s)
    ensures (|s| > 1 ==> s[0] != '0')
    decreases n
  {
    if n < 10 then [DigitChar(n)] else NatToString(n / 10) + [DigitChar(n % 10)]
  }

  lemma {:induction false} NatToStringRoundTrip(n: nat)
    ensures DigitsValue(NatToString(n)) == n
    decreases n
  {
    if n >= 10 {
      NatToStringRoundTrip(n / 10);
      var s := NatToString(n);
      assert s[..|s| - 1] == NatToString(n / 10);
    }
  }

  /** `String(n)` for an integer. */
  function IntToString(n: int): (s: string)
    ensures |s| >= 1
    ensures n >= 0 <==> s[0] != '-'
  {
    if n >= 0 then NatToString(n) else "-" + NatToString(-n)
  }

  // ---------------------------------------------------------------------
  // Whitespace, trim, case

  /** ECMAScript WhiteSpace and LineTerminator code points (what `trim` removes). */
  predicate IsSpace(c: char)
  {
    c == ' ' || c == '\t' || c == '\n' || c == '\r' || c == '\U{B}' || c == '\U{C}'
    || c == '\U{A0}' || c == '\U{1680}' || ('\U{2000}' <= c <= '\U{200A}')
    || c == '\U{2028}' || c == '\U{2029}' || c == '\U{202F}' || c == '\U{205F}'
    || c == '\U{3000}' || c == '\U{FEFF}'
  }

  function TrimStart(s: string): (r: string)
    ensures |r| <= |s| && r == s[|s| - |r|..]
    ensures r == [] || !IsSpace(r[0])
    ensures forall i :: 0 <= i < |s| - |r| ==> IsSpace(s[i])
  {
    if s != [] && IsSpace(s[0]) then TrimStart(s[1..]) else s
  }

  function TrimEnd(s: string): (r: string)
    ensures |r| <= |s| && r == s[..|r|]
    ensures r == [] || !IsSpace(r[|r| - 1])
    ensures forall i :: |r| <= i < |s| ==> IsSpace(s[i])
  {
    if s != [] && IsSpace(s[|s| - 1]) then TrimEnd(s[..|s| - 1]) else s
  }

  /** `s.trim()`. */
  function Trim(s: string): (r: string)
    ensures |r| <= |s|
    ensures r == [] || (!IsSpace(r[0]) && !IsSpace(r[|r| - 1]))
  {
    TrimEnd(TrimStart(s))
  }

  /** A string with no white space at either end is its own trim. */
  lemma TrimUnpadded(s: string)
    requires s != [] && !IsSpace(s[0]) && !IsSpace(s[|s| - 1])
    ensures Trim(s) == s
  {
  }

  /** A string is blank when `s.trim()` is empty. */
  predicate IsBlank(s: string)
  {
    forall i :: 0 <= i < |s| ==> IsSpace(s[i])
  }

  lemma TrimEmptyIffBlank(s: string)
    ensures Trim(s) == "" <==> IsBlank(s)
  {
  }

  function LowerChar(c: char): (d: char)
    ensures 'A' <= c <= 'Z' ==> d as int == c as int + 32
    ensures !('A' <= c <= 'Z') ==> d == c
  {
    if 'A' <= c <= 'Z' then (c as int + 32) as char else c
  }

  function UpperChar(c: char): (d: char)
    ensures 'a' <= c <= 'z' ==> d as int == c as int - 32
    ensures !('a' <= c <= 'z') ==> d == c
  {
    if 'a' <= c <= 'z' then (c as int - 32) as char else c
  }

  /** `s.toLowerCase()` (ASCII letters only). */
  function Lower(s: string): (r: string)
    ensures |r| == |s| && forall i :: 0 <= i < |s| ==> r[i] == LowerChar(s[i])
  {
    seq(|s|, i requires 0 <= i < |s| => LowerChar(s[i]))
  }

  /** `s.toUpperCase()` (ASCII letters only). */
  function Upper(s: string): (r: string)
    ensures |r| == |s| && forall i :: 0 <= i < |s| ==> r[i] == UpperChar(s[i])
  {
    seq(|s|, i requires 0 <= i < |s| => UpperChar(s[i]))
  }

  // ---------------------------------------------------------------------
  // Substrings

  predicate StartsWith(s: string, p: string)
  {
    |p| <= |s| && s[..|p|] == p
  }

  predicate EndsWith(s: string, p: string)
  {
    |p| <= |s| && s[|s| - |p|..] == p
  }

  /** `s.includes(sub)`. */
  predicate Contains(s: string, sub: string)
  {
    exists i :: 0 <= i <= |s| && StartsWith(s[i..], sub)
  }

  lemma ContainsEmpty(s: string)
    ensures Contains(s, "")
  {
    assert StartsWith(s[0..], "");
  }

  /** Case-insensitive containment, as `a.toLowerCase().includes(q.toLowerCase())`. */
  predicate ContainsCI(s: string, q: string)
  {
    Contains(Lower(s), Lower(q))
  }

  /** `s.substring(0, n)` / `s.slice(0, n)` for `n >= 0`. */
  function Take(s: string, n: nat): (r: string)
    ensures |r| == if |s| <= n then |s| else n
    ensures r == s[..|r|]
  {
    if |s| <= n then s else s[..n]
  }

  /** `s.slice(a, b)` for `0 <= a` and `0 <= b`: both ends clamp to the length. */
  function Slice(s: string, a: nat, b: nat): (r: string)
    ensures a <= b && b <= |s| ==> r == s[a..b]
    ensures |r| <= |s|
  {
    var hi := if b <= |s| then b else |s|;
    var lo := if a <= hi then a else hi;
    s[lo..hi]
  }

  /** `s.replace(/\D/g, '')`: only the decimal digits, in order. */
  function DigitsOf(s: string): (r: string)
    ensures AllDigits(r) && |r| <= |s|
    ensures AllDigits(s) ==> r == s
  {
    if s == [] then []
    else (if IsDigit(s[0]) then [s[0]] else []) + DigitsOf(s[1..])
  }

  lemma DigitsOfIdempotent(s: string)
    ensures DigitsOf(DigitsOf(s)) == DigitsOf(s)
  {
  }

  /** Digits of a concatenation. */
  lemma {:induction false} DigitsOfSplit(a: string, b: string)
    ensures DigitsOf(a + b) == DigitsOf(a) + DigitsOf(b)
  {
    if a != [] {
      assert (a + b)[0] == a[0] && (a + b)[1..] == a[1..] + b;
      DigitsOfSplit(a[1..], b);
      var head := if IsDigit(a[0]) then [a[0]] else [];
      AppendAssoc(head, DigitsOf(a[1..]), DigitsOf(b));
    } else {
      assert a + b == b;
    }
  }

  /** The digits of a string are the whole string exactly when it is all digits. */
  lemma {:induction false} DigitsOfAll(s: string)
    ensures DigitsOf(s) == s <==> AllDigits(s)
  {
    if s != [] {
      DigitsOfAll(s[1..]);
      if !IsDigit(s[0]) {
        assert |DigitsOf(s)| <= |s[1..]| < |s|;
      } else if DigitsOf(s[1..]) != s[1..] {
        assert DigitsOf(s) == [s[0]] + DigitsOf(s[1..]);
        assert DigitsOf(s)[1..] == DigitsOf(s[1..]);
      }
    }
  }

  /** Keep only the characters satisfying `keep`, in order. */
  function FilterChars(s: string, keep: char -> bool): (r: string)
    ensures |r| <= |s|
    ensures forall i :: 0 <= i < |r| ==> keep(r[i])
    ensures (forall i :: 0 <= i < |s| ==> keep(s[i])) ==> r == s
    ensures (forall i :: 0 <= i < |s| ==> !keep(s[i])) ==> r == []
  {
    if s == [] then []
    else (if keep(s[0]) then [s[0]] else []) + FilterChars(s[1..], keep)
  }

  /** Filtering a concatenation filters each part. */
  lemma {:induction false} FilterCharsAppend(a: string, b: string, keep: char -> bool)
    ensures FilterChars(a + b, keep) == FilterChars(a, keep) + FilterChars(b, keep)
  {
    if a != [] {
      assert (a + b)[0] == a[0] && (a + b)[1..] == a[1..] + b;
      FilterCharsAppend(a[1..], b, keep);
      var head := if keep(a[0]) then [a[0]] else [];
      AppendAssoc(head, FilterChars(a[1..], keep), FilterChars(b, keep));
    } else {
      assert a + b == b;
    }
  }

  /** Filtering keeps a leading part that passes and drops a following part that fails. */
  lemma FilterCharsSkip(a: string, b: string, c: string, keep: char -> bool)
    requires forall k :: 0 <= k < |a| ==> keep(a[k])
    requires forall k :: 0 <= k < |b| ==> !keep(b[k])
    ensures FilterChars(a + b + c, keep) == a + FilterChars(c, keep)
  {
    var ab := a + b;
    FilterCharsAppend(a, b, keep);
    assert FilterChars(a, keep) == a;
    assert FilterChars(b, keep) == [];
    assert FilterChars(ab, keep) == a;
    FilterCharsAppend(ab, c, keep);
    assert a + b + c == ab + c;
  }

  predicate IsAsciiAlnum(c: char)
  {
    ('a' <= c <= 'z') || ('A' <= c <= 'Z') || IsDigit(c)
  }

  /** Remove every leading occurrence of `c` (`replace(/^c+/, '')`). */
  function DropLeading(s: string, c: char): (r: string)
    ensures |r| <= |s| && r == s[|s| - |r|..]
    ensures r == [] || r[0] != c
    ensures forall i :: 0 <= i < |s| - |r| ==> s[i] == c
  {
    if s != [] && s[0] == c then DropLeading(s[1..], c) else s
  }

  /** Remove every trailing occurrence of `c` (`replace(/c+$/, '')`). */
  function DropTrailing(s: string, c: char): (r: string)
    ensures |r| <= |s| && r == s[..|r|]
    ensures r == [] || r[|r| - 1] != c
    ensures forall i :: |r| <= i < |s| ==> s[i] == c
  {
    if s != [] && s[|s| - 1] == c then DropTrailing(s[..|s| - 1], c) else s
  }

  /** `s.split(sep)` for a one-character separator: the pieces between separators. */
  function Split(s: string, sep: char): (parts: seq<string>)
    ensures |parts| >= 1
    ensures forall k :: 0 <= k < |parts| ==> sep !in parts[k]
  {
    if sep !in s then [s]
    else
      var i := IndexOfChar(s, sep);
      [s[..i]] + Split(s[i + 1..], sep)
  }

  /** Position of the first `c` in `s`, which must occur. */
  function IndexOfChar(s: string, c: char): (i: nat)
    requires c in s
    ensures i < |s| && s[i] == c && c !in s[..i]
  {
    if s[0] == c then 0 else 1 + IndexOfChar(s[1..], c)
  }

  /** Joining the parts of a split with the separator gives the string back. */
  lemma {:induction false} SplitJoin(s: string, sep: char)
    ensures Join(Split(s, sep), [sep]) == s
    decreases |s|
  {
    if sep in s {
      var i := IndexOfChar(s, sep);
      var head, tail := s[..i], s[i + 1..];
      var rest := Split(tail, sep);
      assert Split(s, sep) == [head] + rest;
      SplitJoin(tail, sep);
      JoinCons(head, rest, [sep]);
      assert s == head + [sep] + tail;
    }
  }

  lemma JoinCons(head: string, rest: seq<string>, sep: string)
    requires rest != []
    ensures Join([head] + rest, sep) == head + sep + Join(rest, sep)
  {
    assert ([head] + rest)[1..] == rest;
  }

  /** `parts.join(sep)`. */
  function Join(parts: seq<string>, sep: string): (r: string)
  {
    if parts == [] then ""
    else if |parts| == 1 then parts[0]
    else parts[0] + sep + Join(parts[1..], sep)
  }

  // ---------------------------------------------------------------------
  // Number() and parseInt

  /** The integer denoted by an optional sign followed by one or more digits. */
  function ParseSignedInteger(t: string): (r: Option<int>)
    ensures AllDigits(t) && t != "" ==> r == Some(DigitsValue(t))
  {
    if t != "" && AllDigits(t) then Some(DigitsValue(t))
    else if |t| >= 2 && (t[0] == '-' || t[0] == '+') && AllDigits(t[1..]) then
      var magnitude: int := DigitsValue(t[1..]);
      Some(if t[0] == '-' then -magnitude else magnitude)
    else None
  }

  /** `Number(s)` on a string of integer syntax; `None` stands for NaN. */
  function StringToNumber(s: string): (r: Option<int>)
    ensures IsBlank(s) ==> r == Some(0)
  {
    TrimEmptyIffBlank(s);
    var t := Trim(s);
    if t == "" then Some(0) else ParseSignedInteger(t)
  }

  /** Longest prefix of digits. */
  function LeadingDigits(s: string): (r: string)
    ensures AllDigits(r) && StartsWith(s, r)
    ensures |r| < |s| ==> !IsDigit(s[|r|])
  {
    if s != [] && IsDigit(s[0]) then [s[0]] + LeadingDigits(s[1..]) else []
  }

  /** `parseInt(s, 10)`: leading whitespace, optional sign, then the longest digit prefix. */
  function ParseInt(s: string): (r: Option<int>)
  {
    var t := TrimStart(s);
    var neg := t != [] && t[0] == '-';
    var body := if t != [] && (t[0] == '-' || t[0] == '+') then t[1..] else t;
    var ds := LeadingDigits(body);
    var magnitude: int := if ds == [] then 0 else DigitsValue(ds);
    if ds == [] then None
    else Some(if neg then -magnitude else magnitude)
  }

  lemma {:induction false} LeadingDigitsOfDigits(s: string)
    requires AllDigits(s)
    ensures LeadingDigits(s) == s
  {
    if s != [] {
      LeadingDigitsOfDigits(s[1..]);
    }
  }

  /** On a numeral of plain digits, parseInt reads the whole numeral. */
  lemma ParseIntOfDigits(s: string)
    requires AllDigits(s) && s != ""
    ensures ParseInt(s) == Some(DigitsValue(s))
  {
    assert !IsSpace(s[0]);
    LeadingDigitsOfDigits(s);
  }

  /** `String(v)`. Array elements that are undefined or null become ''. */
  function ToStr(v: Value): (s: string)
    ensures v.Str? ==> s == v.s
  {
    match v
    case Undefined => "undefined"
    case Null => "null"
    case Bool(b) => if b then "true" else "false"
    case Num(n) => IntToString(n)
    case Str(s) => s
    case Arr(items) => JoinValues(items)
  }

  function JoinValues(items: seq<Value>): string
  {
    if items == [] then ""
    else
      var first := if items[0].Undefined? || items[0].Null? then "" else ToStr(items[0]);
      if |items| == 1 then first else first + "," + JoinValues(items[1..])
  }

  /** `Number(v)`; `None` stands for NaN. */
  function ToNumber(v: Value): (r: Option<int>)
    ensures v.Num? ==> r == Some(v.n)
    ensures v.Undefined? ==> r.None?
  {
    match v
    case Undefined => None
    case Null => Some(0)
    case Bool(b) => Some(if b then 1 else 0)
    case Num(n) => Some(n)
    case Str(s) => StringToNumber(s)
    case Arr(_) => StringToNumber(ToStr(v))
  }

  /** `Number(a) > Number(b)`: any NaN makes the comparison false. */
  predicate NumberGreater(a: Value, b: Value)
  {
    var x := ToNumber(a);
    var y := ToNumber(b);
    x.Some? && y.Some? && x.value > y.value
  }

  // ---------------------------------------------------------------------
  // Equality

  /**
   * `a === b`. Two arrays are distinct objects here (the model does not
   * track reference identity), so they are never strictly equal.
   */
  predicate StrictEquals(a: Value, b: Value)
  {
    !a.Arr? && !b.Arr? && a == b
  }

  /** `x === id || x === parseInt(id)`: the id as given, or as the number `parseInt` reads from it. */
  predicate IdMatches(x: Value, id: Value)
  {
    StrictEquals(x, id) || (ParseInt(ToStr(id)).Some? && StrictEquals(x, Num(ParseInt(ToStr(id)).value)))
  }

  /** Rank that strictly decreases along the coercion steps of `==`. */
  function CoercionRank(v: Value): nat
  {
    match v
    case Bool(_) => 2
    case Arr(_) => 1
    case _ => 0
  }

  /** `a == b`, following the IsLooselyEqual algorithm of ECMAScript (section 7.2.15 of ECMA-262). */
  predicate LooseEquals(a: Value, b: Value)
    decreases CoercionRank(a) + CoercionRank(b)
  {
    if (a.Undefined? || a.Null?) && (b.Undefined? || b.Null?) then true
    else if a.Undefined? || a.Null? || b.Undefined? || b.Null? then false
    else if a.Num? && b.Num? then a.n == b.n
    else if a.Str? && b.Str? then a.s == b.s
    else if a.Bool? && b.Bool? then a.b == b.b
    else if a.Arr? && b.Arr? then false
    else if a.Num? && b.Str? then StringToNumber(b.s) == Some(a.n)
    else if a.Str? && b.Num? then StringToNumber(a.s) == Some(b.n)
    else if a.Bool? then LooseEquals(Num(if a.b then 1 else 0), b)
    else if b.Bool? then LooseEquals(a, Num(if b.b then 1 else 0))
    else if b.Arr? then LooseEquals(a, Str(ToStr(b)))
    else LooseEquals(Str(ToStr(a)), b)
  }

  lemma {:induction false} LooseEqualsSymmetric(a: Value, b: Value)
    ensures LooseEquals(a, b) == LooseEquals(b, a)
    decreases CoercionRank(a) + CoercionRank(b)
  {
    if (a.Undefined? || a.Null?) || (b.Undefined? || b.Null?) {
    } else if a.Bool? && !b.Bool? {
      LooseEqualsSymmetric(Num(if a.b then 1 else 0), b);
    } else if b.Bool? && !a.Bool? {
      LooseEqualsSymmetric(a, Num(if b.b then 1 else 0));
    } else if b.Arr? && !a.Arr? {
      LooseEqualsSymmetric(a, Str(ToStr(b)));
    } else if a.Arr? && !b.Arr? {
      LooseEqualsSymmetric(Str(ToStr(a)), b);
    }
  }

  lemma StrictImpliesLoose(a: Value, b: Value)
    requires StrictEquals(a, b)
    ensures LooseEquals(a, b)
  {
  }

  /** `arr.includes(v)` (SameValueZero, which is === without NaN). */
  predicate Includes(arr: seq<Value>, v: Value)
  {
    exists i :: 0 <= i < |arr| && StrictEquals(arr[i], v)
  }

  // ---------------------------------------------------------------------
  // Sequence helpers

  /** Position of the first `x` in `xs` (`xs.indexOf(x)`), or `|xs|` when there is none. */
  function FirstIndex<T(==)>(xs: seq<T>, x: T): (i: nat)
    ensures i <= |xs|
    ensures i < |xs| <==> x in xs
    ensures i < |xs| ==> xs[i] == x
    ensures x !in xs[..i]
  {
    if xs == [] || xs[0] == x then 0
    else
      var k := FirstIndex(xs[1..], x);
      assert xs[..1 + k] == [xs[0]] + xs[1..][..k];
      1 + k
  }

  /** A position holding `x` with no `x` before it is the first index of `x`. */
  lemma FirstIndexIs<T>(xs: seq<T>, x: T, i: nat)
    requires i < |xs| && xs[i] == x && x !in xs[..i]
    ensures FirstIndex(xs, x) == i
  {
  }

  /** Appending a value leaves the first index of every value already present unchanged. */
  lemma FirstIndexSnoc<T>(ys: seq<T>, x: T, y: T)
    ensures FirstIndex(ys + [x], y) == if y in ys then FirstIndex(ys, y) else if y == x then |ys| else |ys| + 1
  {
    var zs := ys + [x];
    var k := FirstIndex(ys, y);
    if y in ys {
      assert zs[..k] == ys[..k];
      FirstIndexIs(zs, y, k);
    } else if y == x {
      assert zs[..|ys|] == ys;
      FirstIndexIs(zs, y, |ys|);
    } else {
      assert forall z :: z in zs ==> z in ys || z == x;
    }
  }

  /** The values of `r` appear in `r` in the order of their first appearance in `xs`. */
  predicate InFirstAppearanceOrder<T(==)>(xs: seq<T>, r: seq<T>)
  {
    forall i, j :: 0 <= i < j < |r| ==> FirstIndex(xs, r[i]) < FirstIndex(xs, r[j])
  }

  /**
   * `r` holds the first distinct values of `xs`, at most `n` of them, in
   * order of first appearance: a value of `xs` is left out only when `r`
   * is full and every value of `r` appeared before it.
   */
  predicate FirstDistinct<T(==)>(xs: seq<T>, r: seq<T>, n: nat)
  {
    |r| <= n &&
    (forall i, j :: 0 <= i < j < |r| ==> r[i] != r[j]) &&
    (forall x :: x in r ==> x in xs) &&
    InFirstAppearanceOrder(xs, r) &&
    (forall x :: x in xs && x !in r ==>
       |r| == n && forall k :: 0 <= k < |r| ==> FirstIndex(xs, r[k]) < FirstIndex(xs, x))
  }

  /** Distinct elements, in order of first appearance (`[...new Set(xs)]`). */
  function Unique<T(==,!new)>(xs: seq<T>): (r: seq<T>)
    ensures forall x :: x in r <==> x in xs
    ensures forall i, j :: 0 <= i < j < |r| ==> r[i] != r[j]
    ensures InFirstAppearanceOrder(xs, r)
    ensures |r| <= |xs|
  {
    UniqueFromOrder(xs);
    UniqueFrom([], xs)
  }

  /** `[...new Set(xs)].slice(0, n)`: the first `n` distinct values, in order of first appearance. */
  lemma PrefixOfUnique<T(!new)>(xs: seq<T>, n: nat)
    ensures FirstDistinct(xs, Prefix(Unique(xs), n), n)
  {
    var u := Unique(xs);
    var r := Prefix(u, n);
    forall x | x in xs && x !in r
      ensures |r| == n && forall k :: 0 <= k < |r| ==> FirstIndex(xs, r[k]) < FirstIndex(xs, x)
    {
      var m :| 0 <= m < |u| && u[m] == x;
      assert m >= |r|;
      forall k | 0 <= k < |r|
        ensures FirstIndex(xs, r[k]) < FirstIndex(xs, x)
      {
        assert r[k] == u[k];
      }
    }
    assert forall x :: x in r ==> x in u;
  }

  /** Appending a value to the input appends it to the distinct values exactly when it is new. */
  lemma {:induction false} UniqueFromSnoc<T(!new)>(seen: seq<T>, xs: seq<T>, x: T)
    requires forall i, j :: 0 <= i < j < |seen| ==> seen[i] != seen[j]
    ensures UniqueFrom(seen, xs + [x]) ==
            if x in seen || x in xs then UniqueFrom(seen, xs) else UniqueFrom(seen, xs) + [x]
    decreases |xs|
  {
    if xs == [] {
      assert xs + [x] == [x] && [x][1..] == [];
    } else {
      var ys := xs + [x];
      assert ys[0] == xs[0] && ys[1..] == xs[1..] + [x];
      assert x in xs <==> x == xs[0] || x in xs[1..];
      if xs[0] in seen {
        UniqueFromSnoc(seen, xs[1..], x);
      } else {
        UniqueFromSnoc(seen + [xs[0]], xs[1..], x);
      }
    }
  }

  lemma {:induction false} UniqueFromOrder<T(!new)>(xs: seq<T>)
    ensures InFirstAppearanceOrder(xs, UniqueFrom([], xs))
    decreases |xs|
  {
    if xs != [] {
      var ys, x := xs[..|xs| - 1], xs[|xs| - 1];
      assert xs == ys + [x];
      UniqueFromOrder(ys);
      UniqueFromSnoc([], ys, x);
      var u := UniqueFrom([], ys);
      var r := UniqueFrom([], xs);
      forall i, j | 0 <= i < j < |r|
        ensures FirstIndex(xs, r[i]) < FirstIndex(xs, r[j])
      {
        FirstIndexSnoc(ys, x, r[i]);
        FirstIndexSnoc(ys, x, r[j]);
        if j < |u| {
          assert r[i] == u[i] && r[j] == u[j];
        } else {
          assert r[i] == u[i] && r[i] in ys;
        }
      }
    }
  }

  function UniqueFrom<T(==,!new)>(seen: seq<T>, xs: seq<T>): (r: seq<T>)
    requires forall i, j :: 0 <= i < j < |seen| ==> seen[i] != seen[j]
    ensures forall x :: x in r <==> x in seen || x in xs
    ensures forall i, j :: 0 <= i < j < |r| ==> r[i] != r[j]
    ensures |seen| <= |r| <= |seen| + |xs|
    ensures r[..|seen|] == seen
    decreases |xs|
  {
    if xs == [] then seen
    else if xs[0] in seen then UniqueFrom(seen, xs[1..])
    else UniqueFrom(seen + [xs[0]], xs[1..])
  }

  /** `xs.slice(0, n)`. */
  function Prefix<T>(xs: seq<T>, n: nat): (r: seq<T>)
    ensures |r| == if |xs| <= n then |xs| else n
    ensures r == xs[..|r|]
  {
    if |xs| <= n then xs else xs[..n]
  }

  /**
   * `copy.splice(index, 1)` on a copy: a negative index counts from the end
   * (clamped to 0), an index past the end removes nothing.
   */
  function SpliceOne<T>(xs: seq<T>, index: int): (r: seq<T>)
    ensures 0 <= index < |xs| ==> r == xs[..index] + xs[index + 1..]
    ensures index >= |xs| ==> r == xs
    ensures -|xs| <= index < 0 ==> r == xs[..|xs| + index] + xs[|xs| + index + 1..]
    ensures index < -|xs| && xs != [] ==> r == xs[1..]
    ensures |r| == if xs != [] && index < |xs| then |xs| - 1 else |xs|
    ensures multiset(r) <= multiset(xs)
  {
    var start := if index < 0 then (if |xs| + index < 0 then 0 else |xs| + index)
                 else if index > |xs| then |xs| else index;
    if start < |xs| then
      assert xs == xs[..start] + [xs[start]] + xs[start + 1..];
      xs[..start] + xs[start + 1..]
    else xs
  }

  /** The head and tail of a concatenation whose left part is not empty. */
  lemma ConsAppend<T>(a: seq<T>, b: seq<T>)
    requires a != []
    ensures (a + b)[0] == a[0] && (a + b)[1..] == a[1..] + b
  {
  }

  /** Concatenation is associative (stated generically, where it is cheap to prove). */
  lemma AppendAssoc<T>(a: seq<T>, b: seq<T>, c: seq<T>)
    ensures (a + b) + c == a + (b + c)
  {
  }
}

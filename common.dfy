/** Shared vocabulary: optional values, JavaScript string and array
    primitives the services rely on, and decimal rendering of integers. */
module Common {

  datatype Option<T> = None | Some(value: T) {
    function GetOr(default: T): T {
      match this
      case Some(v) => v
      case None => default
    }
  }

  // ---------------------------------------------------------------------
  // Strings
  // ---------------------------------------------------------------------

  /** `toLowerCase` restricted to the ASCII letters. */
  function LowerChar(c: char): char {
    if 'A' <= c <= 'Z' then (c as int + 32) as char else c
  }

  function Lower(s: string): string {
    seq(|s|, i requires 0 <= i < |s| => LowerChar(s[i]))
  }

  /** q occurs in s starting at position i. */
  predicate OccursAt(s: string, q: string, i: int) {
    0 <= i <= |s| - |q| && s[i..i + |q|] == q
  }

  /** `s.includes(q)`: q occurs in s at some position (the empty string always does). */
  predicate Includes(s: string, q: string) {
    exists i :: 0 <= i <= |s| - |q| && OccursAt(s, q, i)
  }

  /** `s.toLowerCase().includes(q.toLowerCase())`, as the catalog search uses it. */
  predicate IncludesIgnoringCase(s: string, q: string) {
    Includes(Lower(s), Lower(q))
  }

  predicate IsDigit(c: char) {
    '0' <= c <= '9'
  }

  predicate AllDigits(s: string) {
    forall i :: 0 <= i < |s| ==> IsDigit(s[i])
  }

  // ---------------------------------------------------------------------
  // Integers rendered in decimal (Number.prototype.toString on integers)
  // ---------------------------------------------------------------------

  function DigitChar(d: nat): char
    requires d < 10
  {
    ('0' as int + d) as char
  }

  function NatToString(n: nat): (r: string)
    ensures |r| >= 1 && AllDigits(r)
    ensures r[0] == '0' ==> n == 0
  {
    if n < 10 then [DigitChar(n)] else NatToString(n / 10) + [DigitChar(n % 10)]
  }

  function IntToString(n: int): string {
    if n < 0 then "-" + NatToString(-n) else NatToString(n)
  }

  /** The value a string of decimal digits denotes. */
  function DigitsValue(s: string): nat
    requires AllDigits(s)
  {
    if s == [] then 0 else DigitsValue(s[..|s| - 1]) * 10 + (s[|s| - 1] as int - '0' as int)
  }

  /** Reading back a rendered natural number gives the number. */
  lemma {:induction false} NatToStringRoundTrip(n: nat)
    ensures DigitsValue(NatToString(n)) == n
  {
    if n >= 10 {
      NatToStringRoundTrip(n / 10);
      var s := NatToString(n);
      assert s[..|s| - 1] == NatToString(n / 10);
    }
  }

  /** Distinct numbers render differently. */
  lemma NatToStringInjective(m: nat, n: nat)
    requires NatToString(m) == NatToString(n)
    ensures m == n
  {
    NatToStringRoundTrip(m);
    NatToStringRoundTrip(n);
  }

  /** Distinct integers render differently. */
  lemma IntToStringInjective(m: int, n: int)
    requires IntToString(m) == IntToString(n)
    ensures m == n
  {
    var a, b := NatToString(if m < 0 then -m else m), NatToString(if n < 0 then -n else n);
    assert IsDigit(a[0]) && IsDigit(b[0]);
    if m < 0 && n < 0 {
      assert IntToString(m)[1..] == a && IntToString(n)[1..] == b;
      NatToStringInjective(-m, -n);
    } else if m >= 0 && n >= 0 {
      NatToStringInjective(m, n);
    }
  }

  // ---------------------------------------------------------------------
  // Sequences
  // ---------------------------------------------------------------------

  /** Where `Array.prototype.slice` puts an index: negative counts from the end, then clamp. */
  function SliceIndex(i: int, len: nat): (r: nat)
    ensures r <= len
  {
    if i < 0 then (if len + i < 0 then 0 else len + i) else if i > len then len else i
  }

  /** `s.slice(start, end)`. */
  function Slice<T>(s: seq<T>, start: int, end: int): seq<T> {
    var a, b := SliceIndex(start, |s|), SliceIndex(end, |s|);
    if a < b then s[a..b] else []
  }

  /** `s.slice(0, n)`: a non-negative n keeps the first n elements, a negative n drops the last -n. */
  function Take<T>(s: seq<T>, n: int): (r: seq<T>)
    ensures 0 <= n ==> r == s[..if n < |s| then n else |s|]
    ensures n < 0 ==> r == s[..if |s| + n < 0 then 0 else |s| + n]
  {
    Slice(s, 0, n)
  }

  /** `s.filter(f)`. */
  function Filter<T>(s: seq<T>, f: T -> bool): (r: seq<T>)
    ensures |r| <= |s|
  {
    if s == [] then [] else Filter(s[..|s| - 1], f) + (if f(s[|s| - 1]) then [s[|s| - 1]] else [])
  }

  lemma {:induction false} FilterMembership<T>(s: seq<T>, f: T -> bool, x: T)
    ensures x in Filter(s, f) <==> x in s && f(x)
  {
    if s != [] {
      FilterMembership(s[..|s| - 1], f, x);
      assert s == s[..|s| - 1] + [s[|s| - 1]];
    }
  }

  lemma {:induction false} FilterAll<T>(s: seq<T>, f: T -> bool)
    ensures forall i :: 0 <= i < |Filter(s, f)| ==> Filter(s, f)[i] in s && f(Filter(s, f)[i])
  {
    forall i | 0 <= i < |Filter(s, f)|
      ensures Filter(s, f)[i] in s && f(Filter(s, f)[i])
    {
      FilterMembership(s, f, Filter(s, f)[i]);
    }
  }

  predicate NoDup<T(==)>(s: seq<T>) {
    forall i, j :: 0 <= i < j < |s| ==> s[i] != s[j]
  }

  /** `[...new Set(s)]`: the distinct elements in order of first occurrence. */
  function Dedup<T(==)>(s: seq<T>): seq<T> {
    if s == [] then []
    else
      var d := Dedup(s[..|s| - 1]);
      if s[|s| - 1] in d then d else d + [s[|s| - 1]]
  }

  lemma {:induction false} DedupSpec<T>(s: seq<T>)
    ensures NoDup(Dedup(s))
    ensures forall x :: x in Dedup(s) <==> x in s
    ensures |Dedup(s)| <= |s|
  {
    if s != [] {
      DedupSpec(s[..|s| - 1]);
      assert s == s[..|s| - 1] + [s[|s| - 1]];
    }
  }

  /** Deduplicating `a + b` first deduplicates `a`: earlier occurrences keep their places. */
  lemma {:induction false} DedupPrefix<T>(a: seq<T>, b: seq<T>)
    ensures Dedup(a) <= Dedup(a + b)
  {
    if b != [] {
      DedupPrefix(a, b[..|b| - 1]);
      assert (a + b)[..|a + b| - 1] == a + b[..|b| - 1];
    } else {
      assert a + b == a;
    }
  }

  /** `Set.prototype.add` on a set kept in insertion order. */
  function Add<T(==)>(members: seq<T>, x: T): seq<T> {
    if x in members then members else members + [x]
  }

  /** `Set.prototype.delete` on a set kept in insertion order. */
  function Remove<T(==)>(members: seq<T>, x: T): seq<T> {
    if members == [] then []
    else
      var last := members[|members| - 1];
      Remove(members[..|members| - 1], x) + (if last == x then [] else [last])
  }

  /** Adding keeps the members distinct, contains exactly the old members and x,
      and leaves the set alone when x is already there. */
  lemma AddSpec<T>(members: seq<T>, x: T)
    requires NoDup(members)
    ensures NoDup(Add(members, x))
    ensures forall y :: y in Add(members, x) <==> y in members || y == x
    ensures x in members ==> Add(members, x) == members
    ensures members <= Add(members, x)
  {
  }

  /** Deleting keeps the members distinct, removes exactly x, and deleting an
      absent element changes nothing. */
  lemma {:induction false} RemoveSpec<T>(members: seq<T>, x: T)
    requires NoDup(members)
    ensures NoDup(Remove(members, x))
    ensures forall y :: y in Remove(members, x) <==> y in members && y != x
    ensures x !in members ==> Remove(members, x) == members
  {
    if members != [] {
      var init := members[..|members| - 1];
      assert NoDup(init);
      RemoveSpec(init, x);
      var last := members[|members| - 1];
      assert members == init + [last];
      assert last !in init;
      assert last !in Remove(init, x);
    }
  }

  /** Number of occurrences of x in s. */
  function Count<T(==)>(s: seq<T>, x: T): nat {
    if s == [] then 0 else Count(s[..|s| - 1], x) + (if s[|s| - 1] == x then 1 else 0)
  }

  lemma {:induction false} CountAbsent<T>(s: seq<T>, x: T)
    requires x !in s
    ensures Count(s, x) == 0
  {
    if s != [] {
      CountAbsent(s[..|s| - 1], x);
    }
  }

  // ---------------------------------------------------------------------
  // Products, kept out of the solver's way in the services' proofs
  // ---------------------------------------------------------------------

  lemma NonNegativeProduct(x: real, y: real)
    requires 0.0 <= x && 0.0 <= y
    ensures 0.0 <= x * y
  {
  }

  lemma NonNegativeIntProduct(a: int, b: int)
    ensures 0 <= a && 0 <= b ==> 0 <= a * b
  {
  }

  lemma MulMonotone(a: int, b: int, c: int)
    requires a <= b && c > 0
    ensures a * c <= b * c
  {
  }

  lemma RealMulMonotone(u: real, v: real, c: real)
    requires u <= v && c > 0.0
    ensures u * c <= v * c
  {
  }

  lemma RealMulStrict(u: real, v: real, c: real)
    requires u < v && c > 0.0
    ensures u * c < v * c
  {
  }

  function Min(a: int, b: int): int { if a < b then a else b }
  function Max(a: int, b: int): int { if a < b then b else a }
  function MinReal(a: real, b: real): real { if a < b then a else b }
  function MaxReal(a: real, b: real): real { if a < b then b else a }
  function AbsReal(a: real): real { if a < 0.0 then -a else a }
}

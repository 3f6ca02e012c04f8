/**
 * Strings as Python compares and slices them: code-point lexicographic order,
 * prefix and suffix tests, splitting on the first separator, fixed-width decimal
 * digits and ASCII lower-casing.
 */
module Text {

  import opened Wrappers

  /** Python's `a < b` on `str`: lexicographic by code point, a proper prefix first. */
  predicate Lt(a: string, b: string)
    decreases |a|
  {
    if |a| == 0 then |b| > 0
    else if |b| == 0 then false
    else a[0] < b[0] || (a[0] == b[0] && Lt(a[1..], b[1..]))
  }

  lemma {:induction false} LtIrreflexive(a: string)
    ensures !Lt(a, a)
    decreases |a|
  {
    if |a| > 0 {
      LtIrreflexive(a[1..]);
    }
  }

  lemma {:induction false} LtAsymmetric(a: string, b: string)
    ensures Lt(a, b) ==> !Lt(b, a)
    decreases |a|
  {
    if |a| > 0 && |b| > 0 {
      LtAsymmetric(a[1..], b[1..]);
    }
  }

  lemma {:induction false} LtTransitive(a: string, b: string, c: string)
    requires Lt(a, b) && Lt(b, c)
    ensures Lt(a, c)
    decreases |a|
  {
    if |a| > 0 && a[0] == b[0] && b[0] == c[0] {
      LtTransitive(a[1..], b[1..], c[1..]);
    }
  }

  /** Any two distinct strings are ordered one way or the other. */
  lemma {:induction false} LtTotal(a: string, b: string)
    ensures a == b || Lt(a, b) || Lt(b, a)
    decreases |a|
  {
    if |a| > 0 && |b| > 0 && a[0] == b[0] {
      LtTotal(a[1..], b[1..]);
      if a[1..] == b[1..] {
        assert a == [a[0]] + a[1..] && b == [b[0]] + b[1..];
      }
    }
  }

  /** Comparing two concatenations whose first parts have equal length. */
  lemma {:induction false} LtAppend(x: string, y: string, u: string, v: string)
    requires |x| == |y|
    ensures Lt(x + u, y + v) <==> Lt(x, y) || (x == y && Lt(u, v))
    decreases |x|
  {
    if |x| == 0 {
      assert x + u == u && y + v == v;
    } else {
      assert (x + u)[0] == x[0] && (y + v)[0] == y[0];
      assert (x + u)[1..] == x[1..] + u && (y + v)[1..] == y[1..] + v;
      LtAppend(x[1..], y[1..], u, v);
      if x[0] == y[0] && x[1..] == y[1..] {
        assert x == [x[0]] + x[1..] && y == [y[0]] + y[1..];
      }
    }
  }

  /** A common prefix does not change the order. */
  lemma LtCommonPrefix(p: string, u: string, v: string)
    ensures Lt(p + u, p + v) <==> Lt(u, v)
  {
    LtAppend(p, p, u, v);
    LtIrreflexive(p);
  }

  /** `str.startswith` */
  predicate StartsWith(s: string, prefix: string) {
    |prefix| <= |s| && s[..|prefix|] == prefix
  }

  /** `str.endswith` */
  predicate EndsWith(s: string, suffix: string) {
    |suffix| <= |s| && s[|s| - |suffix|..] == suffix
  }

  /** No character of `s` is one of `seps`. */
  predicate Avoids(s: string, seps: set<char>) {
    forall i :: 0 <= i < |s| ==> s[i] !in seps
  }

  /**
   * Splitting at the first character that is one of `seps`: the text before
   * it and the text after it, or None when no such character occurs. With a
   * single separator this is Python's `s.split(sep, 1)` when it yields two parts.
   */
  function SplitFirst(s: string, seps: set<char>): (r: Option<(string, string)>)
    ensures r.None? <==> Avoids(s, seps)
    ensures r.Some? ==> Avoids(r.value.0, seps) && |r.value.0| < |s|
    ensures r.Some? ==> s[|r.value.0|] in seps && s == r.value.0 + [s[|r.value.0|]] + r.value.1
  {
    if s == [] then None
    else if s[0] in seps then
      assert s == [] + [s[0]] + s[1..];
      Some(([], s[1..]))
    else
      match SplitFirst(s[1..], seps)
      case None => None
      case Some(rest) =>
        assert s == [s[0]] + s[1..];
        Some(([s[0]] + rest.0, rest.1))
  }

  /** Splitting text built around a separator gives back its two parts. */
  lemma {:induction false} SplitFirstOf(a: string, sep: char, b: string, seps: set<char>)
    requires sep in seps && Avoids(a, seps)
    ensures SplitFirst(a + [sep] + b, seps) == Some((a, b))
  {
    var s := a + [sep] + b;
    if a == [] {
      assert s == [sep] + b;
    } else {
      assert s[0] == a[0] && s[1..] == a[1..] + [sep] + b;
      SplitFirstOf(a[1..], sep, b, seps);
      assert [a[0]] + a[1..] == a;
    }
  }

  // ---------------------------------------------------------------------------
  // Decimal digits

  predicate IsDigit(c: char) { '0' <= c <= '9' }

  predicate AllDigits(s: string) {
    forall i :: 0 <= i < |s| ==> IsDigit(s[i])
  }

  function DigitChar(d: nat): char
    requires d < 10
  {
    ('0' as int + d) as char
  }

  function Pow10(w: nat): (r: nat)
    ensures r >= 1
  {
    if w == 0 then 1 else 10 * Pow10(w - 1)
  }

  /** `n` written with exactly `w` decimal digits, zero-padded on the left. */
  function Digits(n: nat, w: nat): (r: string)
    ensures |r| == w && AllDigits(r)
  {
    if w == 0 then [] else Digits(n / 10, w - 1) + [DigitChar(n % 10)]
  }

  /** The number an ASCII digit string denotes. */
  function Value(s: string): nat
    requires AllDigits(s)
  {
    if s == [] then 0 else 10 * Value(s[..|s| - 1]) + (s[|s| - 1] as int - '0' as int)
  }

  lemma {:induction false} ValueOfDigits(n: nat, w: nat)
    requires n < Pow10(w)
    ensures Value(Digits(n, w)) == n
  {
    if w > 0 {
      var s := Digits(n, w);
      assert s[..|s| - 1] == Digits(n / 10, w - 1);
      ValueOfDigits(n / 10, w - 1);
    }
  }

  /** For numbers that fit the width, digit order is numeric order. */
  lemma {:induction false} DigitsOrder(a: nat, b: nat, w: nat)
    requires a < Pow10(w) && b < Pow10(w)
    ensures Lt(Digits(a, w), Digits(b, w)) <==> a < b
  {
    if w == 0 {
    } else {
      var x, y := Digits(a / 10, w - 1), Digits(b / 10, w - 1);
      LtAppend(x, y, [DigitChar(a % 10)], [DigitChar(b % 10)]);
      DigitsOrder(a / 10, b / 10, w - 1);
      if x == y {
        ValueOfDigits(a / 10, w - 1);
        ValueOfDigits(b / 10, w - 1);
      }
    }
  }

  /** Equal-width digit strings are equal exactly when the numbers are. */
  lemma DigitsInjective(a: nat, b: nat, w: nat)
    requires a < Pow10(w) && b < Pow10(w)
    ensures Digits(a, w) == Digits(b, w) <==> a == b
  {
    if Digits(a, w) == Digits(b, w) {
      ValueOfDigits(a, w);
      ValueOfDigits(b, w);
    }
  }

  // ---------------------------------------------------------------------------
  // Sorting file names (`list.sort()`, with `reverse=True` for descending)

  /** `a` goes before `b` in ascending order, or in descending order. */
  predicate Precedes(a: string, b: string, descending: bool) {
    if descending then Lt(b, a) else Lt(a, b)
  }

  /** Strictly ordered, so also free of duplicates. */
  predicate Sorted(s: seq<string>, descending: bool) {
    forall i, j :: 0 <= i < j < |s| ==> Precedes(s[i], s[j], descending)
  }

  predicate Distinct(s: seq<string>) {
    forall i, j :: 0 <= i < j < |s| ==> s[i] != s[j]
  }

  lemma PrecedesTransitive(a: string, b: string, c: string, descending: bool)
    requires Precedes(a, b, descending) && Precedes(b, c, descending)
    ensures Precedes(a, c, descending)
  {
    if descending { LtTransitive(c, b, a); } else { LtTransitive(a, b, c); }
  }

  lemma PrecedesTotal(a: string, b: string, descending: bool)
    ensures a == b || Precedes(a, b, descending) || Precedes(b, a, descending)
    ensures !(Precedes(a, b, descending) && Precedes(b, a, descending))
    ensures !Precedes(a, a, descending)
  {
    LtTotal(a, b);
    LtAsymmetric(a, b);
    LtIrreflexive(a);
  }

  /** `m` is in `s` and goes before every other name of `s`. */
  predicate IsFirst(m: string, s: set<string>, descending: bool) {
    m in s && forall x :: x in s && x != m ==> Precedes(m, x, descending)
  }

  /** A finite non-empty set of names has a first one in either order. */
  lemma {:induction false} FirstExists(s: set<string>, descending: bool) returns (m: string)
    requires s != {}
    ensures IsFirst(m, s, descending)
    decreases |s|
  {
    var y :| y in s;
    if s - {y} == {} {
      m := y;
      assert s == {y};
    } else {
      var m' := FirstExists(s - {y}, descending);
      PrecedesTotal(m', y, descending);
      if Precedes(y, m', descending) {
        m := y;
        forall x | x in s && x != y ensures Precedes(y, x, descending) {
          if x != m' {
            assert x in s - {y};
            PrecedesTransitive(y, m', x, descending);
          }
        }
      } else {
        m := m';
        forall x | x in s && x != m' ensures Precedes(m', x, descending) {
          if x != y { assert x in s - {y}; }
        }
      }
    }
  }

  lemma SomeFirst(s: set<string>, descending: bool)
    requires s != {}
    ensures exists m :: IsFirst(m, s, descending)
  {
    var m := FirstExists(s, descending);
  }

  /** The names of a set in order: the one sequence `Sort` can return for them. */
  ghost function SortedSet(s: set<string>, descending: bool): (r: seq<string>)
    ensures Sorted(r, descending) && |r| == |s|
    ensures forall x :: x in r <==> x in s
    decreases |s|
  {
    if s == {} then []
    else
      SomeFirst(s, descending);
      var m :| IsFirst(m, s, descending);
      var rest := SortedSet(s - {m}, descending);
      assert forall j :: 0 <= j < |rest| ==> rest[j] in s - {m};
      [m] + rest
  }

  lemma HeadIn(s: seq<string>)
    requires s != []
    ensures s[0] in s
  {
  }

  /** Two sorted sequences with the same names are the same sequence. */
  lemma {:induction false} SortedUnique(a: seq<string>, b: seq<string>, descending: bool)
    requires Sorted(a, descending) && Sorted(b, descending)
    requires forall x :: x in a <==> x in b
    ensures a == b
    decreases |a|
  {
    if a != [] && b != [] {
      assert a[0] in b && b[0] in a;
      if a[0] != b[0] {
        var i :| 0 <= i < |b| && b[i] == a[0];
        var j :| 0 <= j < |a| && a[j] == b[0];
        PrecedesTotal(a[0], b[0], descending);
      }
      forall x ensures x in a[1..] <==> x in b[1..] {
        if x in a[1..] {
          var i :| 1 <= i < |a| && a[i] == x;
          PrecedesTotal(a[0], x, descending);
          assert x in b;
          var k :| 0 <= k < |b| && b[k] == x;
          assert k != 0 && b[1..][k - 1] == x;
        }
        if x in b[1..] {
          var i :| 1 <= i < |b| && b[i] == x;
          PrecedesTotal(b[0], x, descending);
          assert x in a;
          var k :| 0 <= k < |a| && a[k] == x;
          assert k != 0 && a[1..][k - 1] == x;
        }
      }
      SortedUnique(a[1..], b[1..], descending);
      assert a == [a[0]] + a[1..] && b == [b[0]] + b[1..];
    } else if a != [] {
      HeadIn(a);
      assert false;
    } else if b != [] {
      HeadIn(b);
      assert false;
    }
  }

  /** Insertion sort of distinct names; the result is strictly ordered. */
  method Sort(s: seq<string>, descending: bool) returns (r: seq<string>)
    requires Distinct(s)
    ensures Sorted(r, descending) && multiset(r) == multiset(s)
  {
    r := [];
    var i := 0;
    while i < |s|
      invariant 0 <= i <= |s|
      invariant Sorted(r, descending)
      invariant multiset(r) == multiset(s[..i])
    {
      assert s[i] !in s[..i];
      r := Insert(r, s[i], descending);
      assert s[..i + 1] == s[..i] + [s[i]];
      i := i + 1;
    }
    assert s[..i] == s;
  }

  /** Puts a new name in its place in a sorted sequence. */
  method Insert(r: seq<string>, x: string, descending: bool) returns (r': seq<string>)
    requires Sorted(r, descending) && x !in multiset(r)
    ensures Sorted(r', descending) && multiset(r') == multiset(r) + multiset{x}
  {
    var j := 0;
    while j < |r| && Precedes(r[j], x, descending)
      invariant 0 <= j <= |r|
      invariant forall k :: 0 <= k < j ==> Precedes(r[k], x, descending)
    {
      j := j + 1;
    }
    if j < |r| {
      assert r[j] in multiset(r);
      PrecedesTotal(r[j], x, descending);
      forall k | j < k < |r| ensures Precedes(x, r[k], descending) {
        PrecedesTransitive(x, r[j], r[k], descending);
      }
    }
    assert r == r[..j] + r[j..];
    r' := r[..j] + [x] + r[j..];
    forall a, b | 0 <= a < b < |r'| ensures Precedes(r'[a], r'[b], descending) {
      if b < j || a > j {
      } else if a < j && b > j {
        PrecedesTransitive(r'[a], x, r'[b], descending);
      }
    }
  }

  // ---------------------------------------------------------------------------
  // ASCII lower-casing (`str.lower` restricted to ASCII letters)

  function LowerChar(c: char): char {
    if 'A' <= c <= 'Z' then (c as int + 32) as char else c
  }

  function Lower(s: string): (r: string)
    ensures |r| == |s|
    ensures forall i :: 0 <= i < |s| ==> r[i] == LowerChar(s[i])
  {
    seq(|s|, i requires 0 <= i < |s| => LowerChar(s[i]))
  }

  /** Python's `a.lower() == b.lower()`, ASCII letters only. */
  predicate EqualsIgnoreCase(a: string, b: string) {
    Lower(a) == Lower(b)
  }
}

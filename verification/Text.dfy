/** Strings as the program uses them: byte-wise order and sorting, decimal numbers, lower case and trimming. */
module Text {

  /** The byte-wise order of two strings, as sort.Strings compares them. */
  predicate Below(a: string, b: string) {
    if b == "" then false
    else if a == "" then true
    else a[0] < b[0] || (a[0] == b[0] && Below(a[1..], b[1..]))
  }

  lemma {:induction false} BelowTotal(a: string, b: string)
    ensures Below(a, b) || a == b || Below(b, a)
  {
    if a != "" && b != "" && a[0] == b[0] {
      BelowTotal(a[1..], b[1..]);
      if a[1..] == b[1..] {
        assert a == [a[0]] + a[1..] && b == [b[0]] + b[1..];
      }
    }
  }

  lemma {:induction false} BelowTransitive(a: string, b: string, c: string)
    requires Below(a, b) && Below(b, c)
    ensures Below(a, c)
  {
    if a != "" && a[0] == b[0] && b[0] == c[0] {
      BelowTransitive(a[1..], b[1..], c[1..]);
    }
  }

  lemma {:induction false} BelowIrreflexive(a: string)
    ensures !Below(a, a)
  {
    if a != "" {
      BelowIrreflexive(a[1..]);
    }
  }

  predicate Distinct<T(==)>(s: seq<T>) {
    forall i, j :: 0 <= i < j < |s| ==> s[i] != s[j]
  }

  /** A strict order in which "not above" is transitive: what a comparison sort needs of its comparison. */
  ghost predicate IsOrdering<T(!new)>(below: (T, T) -> bool) {
    && (forall a, b :: below(a, b) ==> !below(b, a))
    && (forall a, b, c {:trigger below(b, a), below(c, b)} :: !below(b, a) && !below(c, b) ==> !below(c, a))
  }

  /** No element stands before a smaller one. */
  ghost predicate AscendingBy<T>(below: (T, T) -> bool, s: seq<T>) {
    forall i, j :: 0 <= i < j < |s| ==> !below(s[j], s[i])
  }

  /** Insertion before the first element that is not smaller keeps equal elements in their order. */
  function Insert<T(!new)>(below: (T, T) -> bool, x: T, s: seq<T>): (r: seq<T>)
    ensures multiset(r) == multiset(s) + multiset{x}
  {
    if s == [] then [x]
    else if below(s[0], x) then
      assert s == [s[0]] + s[1..];
      [s[0]] + Insert(below, x, s[1..])
    else [x] + s
  }

  /** A stable sort: the same elements in ascending order. */
  function SortedBy<T(!new)>(below: (T, T) -> bool, s: seq<T>): (r: seq<T>)
    ensures multiset(r) == multiset(s)
    ensures |r| == |s|
    ensures forall x :: x in r <==> x in s
  {
    if s == [] then []
    else
      assert s == [s[0]] + s[1..];
      var r := Insert(below, s[0], SortedBy(below, s[1..]));
      assert |multiset(r)| == |multiset(s)|;
      assert forall x :: x in r <==> x in multiset(r);
      assert forall x :: x in s <==> x in multiset(s);
      r
  }

  lemma {:induction false} InsertAscending<T(!new)>(below: (T, T) -> bool, x: T, s: seq<T>)
    requires IsOrdering(below) && AscendingBy(below, s)
    ensures AscendingBy(below, Insert(below, x, s))
  {
    if s != [] {
      if below(s[0], x) {
        var rest := Insert(below, x, s[1..]);
        InsertAscending(below, x, s[1..]);
        forall j | 0 <= j < |rest|
          ensures !below(rest[j], s[0])
        {
          assert rest[j] in multiset(rest);
          if rest[j] != x {
            assert rest[j] in multiset(s[1..]);
            var k :| 0 <= k < |s[1..]| && s[1..][k] == rest[j];
          }
        }
      } else {
        forall j | 0 <= j < |s|
          ensures !below(s[j], x)
        {
          if j > 0 { assert !below(s[j], s[0]); }
        }
      }
    }
  }

  lemma {:induction false} SortedByAscending<T(!new)>(below: (T, T) -> bool, s: seq<T>)
    requires IsOrdering(below)
    ensures AscendingBy(below, SortedBy(below, s))
  {
    if s != [] {
      SortedByAscending(below, s[1..]);
      InsertAscending(below, s[0], SortedBy(below, s[1..]));
    }
  }

  lemma BelowIsOrdering()
    ensures IsOrdering(Below)
  {
    forall a, b | Below(a, b)
      ensures !Below(b, a)
    {
      if Below(b, a) {
        BelowTransitive(a, b, a);
        BelowIrreflexive(a);
      }
    }
    forall a, b, c | !Below(b, a) && !Below(c, b)
      ensures !Below(c, a)
    {
      BelowTotal(a, b);
      BelowTotal(b, c);
      if Below(c, a) {
        if a != b {
          BelowTransitive(c, a, b);
        }
      }
    }
  }

  /** sort.Strings: the same strings in ascending order. */
  function Sorted(s: seq<string>): (r: seq<string>)
    ensures multiset(r) == multiset(s)
    ensures |r| == |s|
    ensures forall x :: x in r <==> x in s
  {
    SortedBy(Below, s)
  }

  predicate Ascending(s: seq<string>) {
    forall i, j :: 0 <= i < j < |s| ==> !Below(s[j], s[i])
  }

  lemma SortedAscending(s: seq<string>)
    ensures Ascending(Sorted(s))
  {
    BelowIsOrdering();
    SortedByAscending(Below, s);
  }

  lemma DistinctByMultiset<T>(s: seq<T>)
    requires forall x :: x in multiset(s) ==> multiset(s)[x] == 1
    ensures Distinct(s)
  {
    forall i, j | 0 <= i < j < |s|
      ensures s[i] != s[j]
    {
      assert s == s[..j] + [s[j]] + s[j + 1..];
      assert s[i] in s[..j];
      assert multiset(s)[s[j]] == multiset(s[..j])[s[j]] + 1 + multiset(s[j + 1..])[s[j]];
    }
  }

  lemma {:induction false} MultisetOfDistinct<T>(s: seq<T>)
    requires Distinct(s)
    ensures forall x :: x in multiset(s) ==> multiset(s)[x] == 1
  {
    if s != [] {
      var last := |s| - 1;
      MultisetOfDistinct(s[..last]);
      assert s == s[..last] + [s[last]];
      assert s[last] !in s[..last];
    }
  }

  lemma SortedDistinct(s: seq<string>)
    requires Distinct(s)
    ensures Distinct(Sorted(s))
  {
    MultisetOfDistinct(s);
    DistinctByMultiset(Sorted(s));
  }

  function Range<T>(s: seq<T>): (r: set<T>) {
    set x | x in s
  }

  /** A sequence without repetition has as many elements as positions; with one it has fewer. */
  lemma {:induction false} RangeSize<T>(s: seq<T>)
    ensures |Range(s)| <= |s|
    ensures |Range(s)| == |s| <==> Distinct(s)
  {
    if s != [] {
      var last := |s| - 1;
      RangeSize(s[..last]);
      assert s == s[..last] + [s[last]];
      assert Range(s) == Range(s[..last]) + {s[last]};
      if s[last] in s[..last] {
        assert Range(s) == Range(s[..last]);
        var i :| 0 <= i < last && s[..last][i] == s[last];
        assert !Distinct(s);
      }
    }
  }

  lemma SubsetSize<T>(a: set<T>, b: set<T>)
    requires a <= b
    ensures |a| <= |b|
    ensures |a| == |b| ==> a == b
  {
    assert b == a + (b - a);
  }

  function Reversed<T>(s: seq<T>): (r: seq<T>)
    ensures |r| == |s|
  {
    if s == [] then [] else Reversed(s[1..]) + [s[0]]
  }

  lemma {:induction false} ReversedAt<T>(s: seq<T>, k: nat)
    requires k < |s|
    ensures Reversed(s)[k] == s[|s| - 1 - k]
  {
    if k < |s| - 1 {
      ReversedAt(s[1..], k);
    }
  }

  // ----- case, digits and trimming (ASCII) -----

  function LowerChar(c: char): char {
    if 'A' <= c <= 'Z' then (c as int + 32) as char else c
  }

  /** strings.ToLower. */
  function Lower(s: string): (r: string)
    ensures |r| == |s|
    ensures forall i :: 0 <= i < |s| ==> r[i] == LowerChar(s[i])
  {
    seq(|s|, i requires 0 <= i < |s| => LowerChar(s[i]))
  }

  lemma LowerTwice(s: string)
    ensures Lower(Lower(s)) == Lower(s)
  {
  }

  lemma LowerJoin(a: string, b: string)
    ensures Lower(a + b) == Lower(a) + Lower(b)
  {
  }

  predicate IsSpace(c: char) {
    c == ' ' || c == '\t' || c == '\n' || c == '\r' || c as int == 11 || c as int == 12
  }

  function TrimLeft(s: string): string {
    if s != "" && IsSpace(s[0]) then TrimLeft(s[1..]) else s
  }

  function TrimRight(s: string): string {
    if s != "" && IsSpace(s[|s| - 1]) then TrimRight(s[..|s| - 1]) else s
  }

  /** strings.TrimSpace. */
  function Trim(s: string): string {
    TrimRight(TrimLeft(s))
  }

  lemma {:induction false} TrimLeftShape(s: string)
    ensures TrimLeft(s) == "" || !IsSpace(TrimLeft(s)[0])
  {
    if s != "" && IsSpace(s[0]) {
      TrimLeftShape(s[1..]);
    }
  }

  lemma {:induction false} TrimRightShape(s: string)
    ensures TrimRight(s) == "" || !IsSpace(TrimRight(s)[|TrimRight(s)| - 1])
    ensures TrimRight(s) <= s
  {
    if s != "" && IsSpace(s[|s| - 1]) {
      TrimRightShape(s[..|s| - 1]);
    }
  }

  lemma TrimTwice(s: string)
    ensures Trim(Trim(s)) == Trim(s)
  {
    TrimLeftShape(s);
    TrimRightShape(TrimLeft(s));
  }

  function Digit(n: nat): char
    requires n < 10
  {
    (n + '0' as int) as char
  }

  /** strconv.Itoa of a natural number. */
  function Decimal(n: nat): (r: string)
    ensures r != "" && '/' !in r
    decreases n
  {
    if n < 10 then [Digit(n)] else Decimal(n / 10) + [Digit(n % 10)]
  }

  lemma {:induction false} DecimalInjective(m: nat, n: nat)
    requires Decimal(m) == Decimal(n)
    ensures m == n
    decreases m
  {
    var a, b := Decimal(m), Decimal(n);
    assert a[|a| - 1] == Digit(m % 10) && b[|b| - 1] == Digit(n % 10);
    assert m % 10 == n % 10;
    if m >= 10 && n >= 10 {
      assert a[..|a| - 1] == Decimal(m / 10) && b[..|b| - 1] == Decimal(n / 10);
      DecimalInjective(m / 10, n / 10);
    }
  }

  /** Two joins with a separator that neither left part contains are equal only part by part. */
  lemma JoinInjective(a: string, b: string, c: string, d: string, separator: char)
    requires separator !in a && separator !in c
    requires a + [separator] + b == c + [separator] + d
    ensures a == c && b == d
  {
    var x := a + [separator] + b;
    var y := c + [separator] + d;
    assert x[|a|] == separator && y[|c|] == separator;
    assert forall i :: 0 <= i < |a| ==> x[i] != separator;
    assert forall i :: 0 <= i < |c| ==> y[i] != separator;
    assert |a| == |c|;
    assert x[..|a|] == a && x[..|c|] == c;
    assert x[|a| + 1..] == b && y[|c| + 1..] == d;
  }
}

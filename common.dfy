// Shared vocabulary: optional values, Python's numeric conversions,
// insertion-ordered dictionaries and a stable sort.

module Common {

  datatype Option<T> = None | Some(value: T)

  // ---------------------------------------------------------------
  // Python numeric conversions on exact reals
  // ---------------------------------------------------------------

  /** Python `round(x)` / `round(x, 0)`: nearest integer, ties to even. */
  function RoundHalfEven(x: real): (n: int)
    ensures n as real - 0.5 <= x <= n as real + 0.5
    ensures x - x.Floor as real == 0.5 ==> n % 2 == 0
  {
    var f := x.Floor;
    var frac := x - f as real;
    if frac < 0.5 then f
    else if frac > 0.5 then f + 1
    else if f % 2 == 0 then f
    else f + 1
  }

  lemma RoundMonotone(x: real, y: real)
    requires x <= y
    ensures RoundHalfEven(x) <= RoundHalfEven(y)
  {
  }

  lemma RoundOfInteger(n: int)
    ensures RoundHalfEven(n as real) == n
  {
  }

  /** `RoundHalfEven` of a value never passes an integer bound on the same side. */
  lemma RoundBelowInteger(x: real, n: int)
    requires x <= n as real
    ensures RoundHalfEven(x) <= n
  {
    RoundMonotone(x, n as real);
    RoundOfInteger(n);
  }

  lemma RoundAboveInteger(x: real, n: int)
    requires n as real <= x
    ensures n <= RoundHalfEven(x)
  {
    RoundMonotone(n as real, x);
    RoundOfInteger(n);
  }

  function Pow10(d: nat): (p: real)
    ensures p >= 1.0
  {
    if d == 0 then 1.0 else 10.0 * Pow10(d - 1)
  }

  /** Python `round(x, d)` for d >= 0, half to even on the scaled value. */
  function RoundTo(x: real, d: nat): (r: real)
    ensures -0.5 <= (r - x) * Pow10(d) <= 0.5
  {
    var p := Pow10(d);
    var n := RoundHalfEven(x * p);
    n as real / p
  }

  /** Rounding keeps the sign of a non-negative value and of a value at least one unit
      of the last place below zero. */
  lemma RoundToSign(x: real, d: nat)
    ensures x >= 0.0 ==> RoundTo(x, d) >= 0.0
    ensures x * Pow10(d) <= -1.0 ==> RoundTo(x, d) < 0.0
  {
    var p := Pow10(d);
    if x >= 0.0 {
      RoundAboveInteger(x * p, 0);
    }
    if x * p <= -1.0 {
      RoundBelowInteger(x * p, -1);
    }
  }

  /** Python `int(x)` on a float: truncation toward zero. */
  function Trunc(x: real): (n: int)
    ensures 0.0 <= x ==> 0 <= n && n as real <= x < n as real + 1.0
    ensures x < 0.0 ==> n <= 0 && n as real - 1.0 < x <= n as real
  {
    if x >= 0.0 then x.Floor else -((-x).Floor)
  }

  function Abs(x: real): (r: real)
    ensures r >= 0.0 && (r == x || r == -x)
  {
    if x < 0.0 then -x else x
  }

  function MaxR(a: real, b: real): (r: real)
    ensures r >= a && r >= b && (r == a || r == b)
  {
    if a >= b then a else b
  }

  function MinR(a: real, b: real): (r: real)
    ensures r <= a && r <= b && (r == a || r == b)
  {
    if a <= b then a else b
  }

  // ---------------------------------------------------------------
  // Sums, extremes and means of a numeric column
  // ---------------------------------------------------------------

  function Sum(xs: seq<real>): real
  {
    if |xs| == 0 then 0.0 else Sum(xs[..|xs| - 1]) + xs[|xs| - 1]
  }

  function Mean(xs: seq<real>): real
    requires |xs| > 0
  {
    Sum(xs) / |xs| as real
  }

  /** Maximum of a non-empty column (`max()`); see MaxOfIsMax. */
  function MaxOf(xs: seq<real>): real
    requires |xs| > 0
  {
    if |xs| == 1 then xs[0] else MaxR(MaxOf(xs[..|xs| - 1]), xs[|xs| - 1])
  }

  /** Minimum of a non-empty column (`min()`); see MinOfIsMin. */
  function MinOf(xs: seq<real>): real
    requires |xs| > 0
  {
    if |xs| == 1 then xs[0] else MinR(MinOf(xs[..|xs| - 1]), xs[|xs| - 1])
  }

  /** The maximum is one of the entries and bounds all of them. */
  lemma {:induction false} MaxOfIsMax(xs: seq<real>)
    requires |xs| > 0
    ensures MaxOf(xs) in xs
    ensures forall i :: 0 <= i < |xs| ==> xs[i] <= MaxOf(xs)
  {
    if |xs| > 1 {
      MaxOfIsMax(xs[..|xs| - 1]);
    }
  }

  /** The minimum is one of the entries and is below all of them. */
  lemma {:induction false} MinOfIsMin(xs: seq<real>)
    requires |xs| > 0
    ensures MinOf(xs) in xs
    ensures forall i :: 0 <= i < |xs| ==> MinOf(xs) <= xs[i]
  {
    if |xs| > 1 {
      MinOfIsMin(xs[..|xs| - 1]);
    }
  }

  lemma {:induction false} SumBounds(xs: seq<real>, lo: real, hi: real)
    requires forall i :: 0 <= i < |xs| ==> lo <= xs[i] <= hi
    ensures |xs| as real * lo <= Sum(xs) <= |xs| as real * hi
  {
    if |xs| > 0 {
      SumBounds(xs[..|xs| - 1], lo, hi);
    }
  }

  /** The mean of a column lies between its minimum and maximum. */
  lemma MeanBetweenExtremes(xs: seq<real>)
    requires |xs| > 0
    ensures MinOf(xs) <= Mean(xs) <= MaxOf(xs)
  {
    MinOfIsMin(xs);
    MaxOfIsMax(xs);
    MeanBounds(xs, MinOf(xs), MaxOf(xs));
  }

  lemma MeanBounds(xs: seq<real>, lo: real, hi: real)
    requires |xs| > 0
    requires forall i :: 0 <= i < |xs| ==> lo <= xs[i] <= hi
    ensures lo <= Mean(xs) <= hi
  {
    SumBounds(xs, lo, hi);
    var s, n := Sum(xs), |xs| as real;
    assert n * lo <= s <= n * hi;
    QuotientBounds(s, n, lo, hi);
  }

  lemma {:induction false} SumAtLeast(xs: seq<real>, lo: real)
    requires forall i :: 0 <= i < |xs| ==> lo <= xs[i]
    ensures |xs| as real * lo <= Sum(xs)
  {
    if |xs| > 0 {
      SumAtLeast(xs[..|xs| - 1], lo);
    }
  }

  lemma MeanAtLeast(xs: seq<real>, lo: real)
    requires |xs| > 0
    requires forall i :: 0 <= i < |xs| ==> lo <= xs[i]
    ensures lo <= Mean(xs)
  {
    SumAtLeast(xs, lo);
    QuotientAtLeast(Sum(xs), |xs| as real, lo);
  }

  lemma QuotientAtLeast(s: real, n: real, lo: real)
    requires n > 0.0 && n * lo <= s
    ensures lo <= s / n
  {
    var q := s / n;
    assert s == n * q;
    assert n * (q - lo) >= 0.0;
  }

  lemma QuotientBounds(s: real, n: real, lo: real, hi: real)
    requires n > 0.0 && n * lo <= s <= n * hi
    ensures lo <= s / n <= hi
  {
    var q := s / n;
    assert s == n * q;
    assert n * (q - lo) >= 0.0;
    assert n * (hi - q) >= 0.0;
  }

  /** For a positive divisor, x / m <= t exactly when x <= t * m. */
  lemma RatioAtMost(x: real, m: real, t: real)
    requires m > 0.0
    ensures x / m <= t <==> x <= t * m
  {
    var q := x / m;
    assert x == q * m;
    assert (t - q) * m == t * m - x;
  }

  lemma QuotientAtMost(x: real, m: real, t: real)
    requires m > 0.0 && x / m <= t
    ensures x <= t * m
  {
    var q := x / m;
    assert x == q * m;
    assert q * m <= t * m;
  }

  lemma {:induction false} SumNonNegative(xs: seq<real>)
    requires forall i :: 0 <= i < |xs| ==> xs[i] >= 0.0
    ensures Sum(xs) >= 0.0
  {
    if |xs| > 0 {
      SumNonNegative(xs[..|xs| - 1]);
    }
  }

  // ---------------------------------------------------------------
  // Insertion-ordered dictionaries (Python dict semantics)
  // ---------------------------------------------------------------

  /** `d[k] = v`: an existing key keeps its position, a new key goes last. */
  function Put<K(==), V>(d: seq<(K, V)>, k: K, v: V): seq<(K, V)>
  {
    if |d| == 0 then [(k, v)]
    else if d[0].0 == k then [(k, v)] + d[1..]
    else [d[0]] + Put(d[1..], k, v)
  }

  function Lookup<K(==), V>(d: seq<(K, V)>, k: K): Option<V>
  {
    if |d| == 0 then None
    else if d[0].0 == k then Some(d[0].1)
    else Lookup(d[1..], k)
  }

  function Values<K, V>(d: seq<(K, V)>): (vs: seq<V>)
    ensures |vs| == |d|
  {
    if |d| == 0 then [] else [d[0].1] + Values(d[1..])
  }

  /** `dict.values()` lists the values in insertion order. */
  lemma {:induction false} ValuesIndex<K, V>(d: seq<(K, V)>)
    ensures forall i :: 0 <= i < |d| ==> Values(d)[i] == d[i].1
  {
    if |d| > 0 {
      ValuesIndex(d[1..]);
    }
  }

  lemma {:induction false} LookupPut<K, V>(d: seq<(K, V)>, k: K, v: V, q: K)
    ensures Lookup(Put(d, k, v), q) == if q == k then Some(v) else Lookup(d, q)
  {
    if |d| > 0 && d[0].0 != k {
      LookupPut(d[1..], k, v, q);
    }
  }

  /** Putting a key that is not yet present appends it. */
  lemma {:induction false} PutFresh<K, V>(d: seq<(K, V)>, k: K, v: V)
    requires Lookup(d, k) == None
    ensures Put(d, k, v) == d + [(k, v)]
  {
    if |d| > 0 {
      PutFresh(d[1..], k, v);
      assert [d[0]] + (d[1..] + [(k, v)]) == d + [(k, v)];
    }
  }

  predicate DistinctKeys<K(==), V>(d: seq<(K, V)>)
  {
    forall i, j :: 0 <= i < j < |d| ==> d[i].0 != d[j].0
  }

  /** A key looks up nothing exactly when no entry carries it. */
  lemma {:induction false} LookupAbsent<K, V>(d: seq<(K, V)>, k: K)
    ensures Lookup(d, k) == None <==> forall i :: 0 <= i < |d| ==> d[i].0 != k
  {
    if |d| > 0 && d[0].0 != k {
      LookupAbsent(d[1..], k);
      if Lookup(d, k) == None {
        forall i | 0 <= i < |d| ensures d[i].0 != k {
          if i > 0 {
            assert d[i] == d[1..][i - 1];
          }
        }
      }
    }
  }

  /** What a key looks up is the value of an entry carrying it. */
  lemma {:induction false} LookupFound<K, V>(d: seq<(K, V)>, k: K)
    requires Lookup(d, k).Some?
    ensures exists i :: 0 <= i < |d| && d[i] == (k, Lookup(d, k).value)
  {
    if d[0].0 != k {
      LookupFound(d[1..], k);
      var i :| 0 <= i < |d[1..]| && d[1..][i] == (k, Lookup(d, k).value);
      assert d[i + 1] == d[1..][i];
    }
  }

  /** With distinct keys an entry is what its key looks up. */
  lemma {:induction false} LookupEntry<K, V>(d: seq<(K, V)>, i: nat)
    requires DistinctKeys(d) && i < |d|
    ensures Lookup(d, d[i].0) == Some(d[i].1)
  {
    if i > 0 {
      assert d[0].0 != d[i].0;
      assert d[1..][i - 1] == d[i];
      LookupEntry(d[1..], i - 1);
    }
  }

  /** With distinct keys, putting a present key replaces its entry in place. */
  lemma {:induction false} PutPresent<K, V>(d: seq<(K, V)>, k: K, v: V)
    requires DistinctKeys(d) && Lookup(d, k).Some?
    ensures |Put(d, k, v)| == |d|
    ensures forall i :: 0 <= i < |d| ==> Put(d, k, v)[i] == if d[i].0 == k then (k, v) else d[i]
  {
    var p := Put(d, k, v);
    if d[0].0 == k {
      forall i | 0 < i < |d| ensures p[i] == d[i] && d[i].0 != k {
        assert p[i] == d[1..][i - 1];
      }
    } else {
      PutPresent(d[1..], k, v);
      forall i | 0 < i < |d| ensures p[i] == if d[i].0 == k then (k, v) else d[i] {
        assert p[i] == Put(d[1..], k, v)[i - 1];
        assert d[i] == d[1..][i - 1];
      }
    }
  }

  predicate Distinct<T(==)>(s: seq<T>)
  {
    forall i, j :: 0 <= i < j < |s| ==> s[i] != s[j]
  }

  // ---------------------------------------------------------------
  // Stable sort by a lexicographic (integer, real) key
  // ---------------------------------------------------------------

  datatype SortKey = SortKey(major: int, minor: real)

  predicate KeyLe(a: SortKey, b: SortKey)
  {
    a.major < b.major || (a.major == b.major && a.minor <= b.minor)
  }

  predicate SortedBy<T>(s: seq<T>, key: T -> SortKey)
  {
    forall i, j :: 0 <= i < j < |s| ==> KeyLe(key(s[i]), key(s[j]))
  }

  /** Inserts `x` before the first element whose key is not below it, so equal keys keep `x` first. */
  function Insert<T>(x: T, s: seq<T>, key: T -> SortKey): seq<T>
  {
    if |s| == 0 then [x]
    else if KeyLe(key(x), key(s[0])) then [x] + s
    else [s[0]] + Insert(x, s[1..], key)
  }

  /** Python `list.sort(key=...)`: stable, ascending by key. */
  function SortBy<T>(s: seq<T>, key: T -> SortKey): seq<T>
  {
    if |s| == 0 then [] else Insert(s[0], SortBy(s[1..], key), key)
  }

  lemma {:induction false} InsertMultiset<T>(x: T, s: seq<T>, key: T -> SortKey)
    ensures multiset(Insert(x, s, key)) == multiset(s) + multiset{x}
  {
    if |s| > 0 && !KeyLe(key(x), key(s[0])) {
      InsertMultiset(x, s[1..], key);
      assert s == [s[0]] + s[1..];
    }
  }

  lemma {:induction false} InsertProperties<T>(x: T, s: seq<T>, key: T -> SortKey)
    requires SortedBy(s, key)
    ensures SortedBy(Insert(x, s, key), key)
    ensures multiset(Insert(x, s, key)) == multiset(s) + multiset{x}
  {
    InsertMultiset(x, s, key);
    if |s| == 0 {
    } else if KeyLe(key(x), key(s[0])) {
      var r := [x] + s;
      forall i, j | 0 <= i < j < |r|
        ensures KeyLe(key(r[i]), key(r[j]))
      {
        assert r[j] == s[j - 1];
        if i > 0 {
          assert r[i] == s[i - 1];
        } else if j > 1 {
          assert KeyLe(key(s[0]), key(s[j - 1]));
        }
      }
    } else {
      InsertProperties(x, s[1..], key);
      var t := Insert(x, s[1..], key);
      forall j | 0 <= j < |t|
        ensures KeyLe(key(s[0]), key(t[j]))
      {
        assert t[j] in multiset(t);
        if t[j] != x {
          assert t[j] in multiset(s[1..]);
          var k :| 0 <= k < |s[1..]| && s[1..][k] == t[j];
          assert s[k + 1] == t[j];
        }
      }
      var r := [s[0]] + t;
      forall i, j | 0 <= i < j < |r|
        ensures KeyLe(key(r[i]), key(r[j]))
      {
        assert r[j] == t[j - 1];
        if i > 0 {
          assert r[i] == t[i - 1];
        }
      }
    }
  }

  lemma {:induction false} SortByProperties<T>(s: seq<T>, key: T -> SortKey)
    ensures SortedBy(SortBy(s, key), key)
    ensures multiset(SortBy(s, key)) == multiset(s)
    ensures |SortBy(s, key)| == |s|
  {
    if |s| > 0 {
      var t := SortBy(s[1..], key);
      SortByProperties(s[1..], key);
      InsertProperties(s[0], t, key);
      assert s == [s[0]] + s[1..];
      assert multiset(s) == multiset(s[1..]) + multiset{s[0]};
      assert SortBy(s, key) == Insert(s[0], t, key);
      assert |SortBy(s, key)| == |multiset(SortBy(s, key))|;
    }
  }

  /** The elements of `s` whose key is `k`, in order. */
  function WithKey<T>(s: seq<T>, key: T -> SortKey, k: SortKey): seq<T>
  {
    if |s| == 0 then [] else (if key(s[0]) == k then [s[0]] else []) + WithKey(s[1..], key, k)
  }

  lemma {:induction false} InsertWithKey<T>(x: T, s: seq<T>, key: T -> SortKey, k: SortKey)
    ensures WithKey(Insert(x, s, key), key, k) == (if key(x) == k then [x] else []) + WithKey(s, key, k)
  {
    if |s| == 0 {
    } else if KeyLe(key(x), key(s[0])) {
      assert ([x] + s)[1..] == s;
    } else {
      InsertWithKey(x, s[1..], key, k);
      var r := [s[0]] + Insert(x, s[1..], key);
      assert r[1..] == Insert(x, s[1..], key);
      assert key(s[0]) != key(x);
    }
  }

  /** The sort is stable: elements with equal keys keep their relative order. */
  lemma {:induction false} SortByStable<T>(s: seq<T>, key: T -> SortKey, k: SortKey)
    ensures WithKey(SortBy(s, key), key, k) == WithKey(s, key, k)
  {
    if |s| > 0 {
      SortByStable(s[1..], key, k);
      InsertWithKey(s[0], SortBy(s[1..], key), key, k);
    }
  }

  // ---------------------------------------------------------------
  // Mapping a sequence
  // ---------------------------------------------------------------

  function MapSeq<A, B>(f: A -> B, s: seq<A>): (r: seq<B>)
    ensures |r| == |s| && forall i :: 0 <= i < |s| ==> r[i] == f(s[i])
  {
    seq(|s|, i requires 0 <= i < |s| => f(s[i]))
  }

  lemma MapSeqAppend<A, B>(f: A -> B, a: seq<A>, b: seq<A>)
    ensures MapSeq(f, a + b) == MapSeq(f, a) + MapSeq(f, b)
  {
  }

  lemma MapSplit<A, B>(f: A -> B, front: seq<A>, x: A, back: seq<A>)
    ensures multiset(MapSeq(f, front + [x] + back)) == multiset{f(x)} + multiset(MapSeq(f, front + back))
  {
    MapSeqAppend(f, front + [x], back);
    MapSeqAppend(f, front, [x]);
    MapSeqAppend(f, front, back);
    var mf, mb := MapSeq(f, front), MapSeq(f, back);
    assert MapSeq(f, front + [x] + back) == mf + [f(x)] + mb;
    assert multiset(mf + [f(x)] + mb) == multiset(mf) + multiset{f(x)} + multiset(mb);
  }

  /** The present values of `f` over `s`, in order. */
  function Present<R, A>(s: seq<R>, f: R -> Option<A>): seq<A>
  {
    if |s| == 0 then []
    else Present(s[..|s| - 1], f) + (if f(s[|s| - 1]).Some? then [f(s[|s| - 1]).value] else [])
  }

  /** A value is present exactly when some element maps to it. */
  lemma {:induction false} PresentMeaning<R, A>(s: seq<R>, f: R -> Option<A>)
    ensures forall a :: a in Present(s, f) ==> exists i :: 0 <= i < |s| && f(s[i]) == Some(a)
    ensures forall i :: 0 <= i < |s| && f(s[i]).Some? ==> f(s[i]).value in Present(s, f)
  {
    if |s| > 0 {
      var front := s[..|s| - 1];
      PresentMeaning(front, f);
      forall a | a in Present(s, f)
        ensures exists i :: 0 <= i < |s| && f(s[i]) == Some(a)
      {
        if a in Present(front, f) {
          var i :| 0 <= i < |front| && f(front[i]) == Some(a);
          assert s[i] == front[i];
        } else {
          assert f(s[|s| - 1]) == Some(a);
        }
      }
      forall i | 0 <= i < |s| && f(s[i]).Some?
        ensures f(s[i]).value in Present(s, f)
      {
        if i < |s| - 1 {
          assert s[i] == front[i];
        }
      }
    }
  }

  lemma PrefixSnoc<T>(d: seq<T>, n: nat)
    requires 0 < n <= |d|
    ensures d[..n] == d[..n - 1] + [d[n - 1]] && d[..n][..n - 1] == d[..n - 1]
  {
  }

  /** Cancels the common part `w` of a multiset equation. */
  lemma MultisetCancel<T>(c: multiset<T>, c2: multiset<T>, w: multiset<T>, e: multiset<T>)
    requires c2 + w == c + (w + e)
    ensures c2 == c + e
  {
    calc {
      c2;
      c2 + w - w;
      c + (w + e) - w;
      c + e + w - w;
      c + e;
    }
  }

  /** Taking the same element out of two permutations of each other leaves permutations. */
  lemma RemoveOne<A>(x: A, rest: seq<A>, front: seq<A>, back: seq<A>)
    requires multiset([x] + rest) == multiset(front + [x] + back)
    ensures multiset(rest) == multiset(front + back)
  {
    assert multiset(rest) == multiset([x] + rest) - multiset{x};
    assert multiset(front + [x] + back) == multiset(front) + multiset{x} + multiset(back);
    assert multiset(front + back) == multiset(front + [x] + back) - multiset{x};
  }

  /** Mapping two permutations of each other gives permutations of each other. */
  lemma {:induction false} MapMultiset<A, B>(f: A -> B, a: seq<A>, b: seq<A>)
    requires multiset(a) == multiset(b)
    ensures multiset(MapSeq(f, a)) == multiset(MapSeq(f, b))
  {
    if |a| > 0 {
      var x, rest := a[0], a[1..];
      assert a == [x] + rest;
      assert x in b by {
        assert x in multiset(b);
      }
      var k :| 0 <= k < |b| && b[k] == x;
      var front, back := b[..k], b[k + 1..];
      assert b == front + [x] + back;
      RemoveOne(x, rest, front, back);
      MapMultiset(f, rest, front + back);
      MapSplit(f, front, x, back);
      MapSplit(f, [], x, rest);
      var none: seq<A> := [];
      assert none + [x] == [x] && none + rest == rest;
      assert none + [x] + rest == a;
    }
  }

  // ---------------------------------------------------------------
  // Decimal rendering of naturals (Python `str(n)` for n >= 0)
  // ---------------------------------------------------------------

  function DigitChar(d: nat): (c: char)
    requires d < 10
    ensures '0' <= c <= '9' && (c - '0') as nat == d
  {
    ('0' as int + d) as char
  }

  function NatToString(n: nat): (s: string)
    ensures |s| >= 1
    ensures forall i :: 0 <= i < |s| ==> '0' <= s[i] <= '9'
  {
    if n < 10 then [DigitChar(n)] else NatToString(n / 10) + [DigitChar(n % 10)]
  }

  function IntToString(n: int): (s: string)
    ensures |s| >= 1
  {
    if n < 0 then "-" + NatToString(-n) else NatToString(n)
  }

  predicate IsDigits(s: string)
  {
    |s| > 0 && forall i :: 0 <= i < |s| ==> '0' <= s[i] <= '9'
  }

  function DigitsValue(s: string): nat
    requires forall i :: 0 <= i < |s| ==> '0' <= s[i] <= '9'
  {
    if |s| == 0 then 0 else 10 * DigitsValue(s[..|s| - 1]) + (s[|s| - 1] - '0') as nat
  }

  /** `str` followed by `int` gives the number back. */
  lemma {:induction false} NatToStringRoundTrip(n: nat)
    ensures DigitsValue(NatToString(n)) == n
  {
    if n >= 10 {
      NatToStringRoundTrip(n / 10);
      var s, p := NatToString(n), NatToString(n / 10);
      assert s == p + [DigitChar(n % 10)];
      assert s[..|s| - 1] == p;
      assert DigitsValue(s) == 10 * DigitsValue(p) + n % 10;
    }
  }

  // ---------------------------------------------------------------
  // Python number formatting: `{n:,}` and `{x:.Nf}`
  // ---------------------------------------------------------------

  function Pow10N(w: nat): (p: nat)
    ensures p >= 1
  {
    if w == 0 then 1 else 10 * Pow10N(w - 1)
  }

  lemma {:induction false} Pow10Agree(w: nat)
    ensures Pow10(w) == Pow10N(w) as real
  {
    if w > 0 {
      Pow10Agree(w - 1);
    }
  }

  /** The last `w` digits of `k`, zero-padded on the left. */
  function PadDigits(k: nat, w: nat): (s: string)
    ensures |s| == w && forall i :: 0 <= i < |s| ==> '0' <= s[i] <= '9'
  {
    if w == 0 then "" else PadDigits(k / 10, w - 1) + [DigitChar(k % 10)]
  }

  lemma ShiftDigit(whole: int, front: int, va: int, p0: int, vb0: int, last: int)
    requires whole == 10 * front + last && front == va * p0 + vb0
    ensures whole == va * (10 * p0) + (10 * vb0 + last)
  {
    assert 10 * (va * p0) == va * (10 * p0);
  }

  /** Two digit strings join into one. */
  lemma DigitsJoin(a: string, b: string)
    requires forall i :: 0 <= i < |a| ==> '0' <= a[i] <= '9'
    requires forall i :: 0 <= i < |b| ==> '0' <= b[i] <= '9'
    ensures forall i :: 0 <= i < |a + b| ==> '0' <= (a + b)[i] <= '9'
  {
  }

  lemma {:induction false} DigitsValueAppend(a: string, b: string)
    requires forall i :: 0 <= i < |a| ==> '0' <= a[i] <= '9'
    requires forall i :: 0 <= i < |b| ==> '0' <= b[i] <= '9'
    ensures DigitsValue(a + b) == DigitsValue(a) * Pow10N(|b|) + DigitsValue(b)
  {
    if |b| == 0 {
      assert a + b == a;
    } else {
      var b0, c, ab := b[..|b| - 1], b[|b| - 1], a + b;
      DigitsJoin(a, b0);
      DigitsJoin(a, b);
      assert ab[..|ab| - 1] == a + b0;
      assert ab[|ab| - 1] == c;
      DigitsValueAppend(a, b0);
      var va, vb0, p0 := DigitsValue(a), DigitsValue(b0), Pow10N(|b0|);
      var last := (c - '0') as nat;
      assert DigitsValue(ab) == 10 * DigitsValue(a + b0) + last;
      assert DigitsValue(b) == 10 * vb0 + last;
      ShiftDigit(DigitsValue(ab), DigitsValue(a + b0), va, p0, vb0, last);
    }
  }

  lemma {:induction false} PadDigitsValue(k: nat, w: nat)
    requires k < Pow10N(w)
    ensures DigitsValue(PadDigits(k, w)) == k
  {
    if w > 0 {
      assert k / 10 < Pow10N(w - 1);
      PadDigitsValue(k / 10, w - 1);
      var s := PadDigits(k, w);
      assert s[..|s| - 1] == PadDigits(k / 10, w - 1);
    }
  }

  /** Python `f"{n:,}"` for a natural: digits grouped by three with commas. */
  function GroupedNat(n: nat): string
  {
    if n < 1000 then NatToString(n) else GroupedNat(n / 1000) + "," + PadDigits(n % 1000, 3)
  }

  /** Python `f"{n:,}"`. */
  function Grouped(n: int): string
  {
    if n < 0 then "-" + GroupedNat(-n) else GroupedNat(n)
  }

  function WithoutCommas(s: string): string
  {
    if |s| == 0 then "" else WithoutCommas(s[..|s| - 1]) + (if s[|s| - 1] == ',' then "" else [s[|s| - 1]])
  }

  lemma {:induction false} WithoutCommasAppend(a: string, b: string)
    ensures WithoutCommas(a + b) == WithoutCommas(a) + WithoutCommas(b)
  {
    if |b| == 0 {
      assert a + b == a;
    } else {
      assert (a + b)[..|a + b| - 1] == a + b[..|b| - 1];
      WithoutCommasAppend(a, b[..|b| - 1]);
    }
  }

  lemma {:induction false} WithoutCommasAbsent(s: string)
    requires ',' !in s
    ensures WithoutCommas(s) == s
  {
    if |s| > 0 {
      var front, last := s[..|s| - 1], s[|s| - 1];
      assert last != ',' by {
        assert last in s;
      }
      assert ',' !in front;
      WithoutCommasAbsent(front);
      assert front + [last] == s;
    }
  }

  lemma {:induction false} WithoutCommasDigits(s: string)
    requires forall i :: 0 <= i < |s| ==> '0' <= s[i] <= '9'
    ensures WithoutCommas(s) == s
  {
    if |s| > 0 {
      WithoutCommasDigits(s[..|s| - 1]);
    }
  }

  lemma GroupStepText(head: string, tail: string)
    requires forall i :: 0 <= i < |tail| ==> '0' <= tail[i] <= '9'
    ensures WithoutCommas(head + "," + tail) == WithoutCommas(head) + tail
  {
    var hc := head + ",";
    assert WithoutCommas(",") == "" by {
      assert ","[..0] == "";
    }
    WithoutCommasAppend(head, ",");
    assert WithoutCommas(hc) == WithoutCommas(head);
    WithoutCommasAppend(hc, tail);
    WithoutCommasDigits(tail);
  }

  /** Dropping the commas from `f"{n:,}"` leaves the decimal digits of `n`. */
  lemma {:induction false} GroupedNatValue(n: nat)
    ensures var d := WithoutCommas(GroupedNat(n));
      (forall i :: 0 <= i < |d| ==> '0' <= d[i] <= '9') && DigitsValue(d) == n
  {
    if n < 1000 {
      WithoutCommasDigits(NatToString(n));
      NatToStringRoundTrip(n);
    } else {
      GroupedNatValue(n / 1000);
      var head, tail := GroupedNat(n / 1000), PadDigits(n % 1000, 3);
      var front := WithoutCommas(head);
      GroupStepText(head, tail);
      assert GroupedNat(n) == head + "," + tail;
      var whole := front + tail;
      forall i | 0 <= i < |whole|
        ensures '0' <= whole[i] <= '9'
      {
        if i < |front| {
          assert whole[i] == front[i];
        } else {
          assert whole[i] == tail[i - |front|];
        }
      }
      DigitsValueAppend(front, tail);
      assert Pow10N(3) == 1000;
      PadDigitsValue(n % 1000, 3);
      ThousandsRecombine(n, DigitsValue(front), DigitsValue(tail));
    }
  }

  lemma ThousandsRecombine(n: nat, high: nat, low: nat)
    requires high == n / 1000 && low == n % 1000
    ensures high * 1000 + low == n
  {
  }

  /**
   * Python `f"{x:.{d}f}"` on the exact value: |x| rounded half to even at `d`
   * places, a minus sign for any negative `x`, no point when `d` is 0.
   */
  function Fixed(x: real, d: nat): (s: string)
    ensures |s| >= 1
  {
    FixedDigits(x < 0.0, Scaled(x, d), d)
  }

  /** The text of `n`·10^-d with `d` places, after a minus sign when `negative`. */
  function FixedDigits(negative: bool, n: nat, d: nat): (s: string)
    ensures |s| >= 1
  {
    var (q, r) := DivMod(n, Pow10N(d));
    (if negative then "-" else "") + NatToString(q) + (if d == 0 then "" else "." + PadDigits(r, d))
  }

  /** |x|·10^d rounded half to even. */
  function Scaled(x: real, d: nat): (n: nat)
  {
    var y := Abs(x) * Pow10(d);
    assert y >= 0.0;
    RoundHalfEven(y)
  }

  function DivMod(n: nat, p: nat): (qr: (nat, nat))
    requires p >= 1
    ensures qr.0 * p + qr.1 == n && qr.1 < p
  {
    (n / p, n % p)
  }

  /** Python `f"{x:+.{d}f}"`: as `Fixed` with a plus sign on non-negative values. */
  function SignedFixed(x: real, d: nat): string
  {
    (if x >= 0.0 then "+" else "") + Fixed(x, d)
  }

  /** Python `f"{x:.0%}"`. */
  function Percent0(x: real): string
  {
    Fixed(x * 100.0, 0) + "%"
  }

  /**
   * `FixedDigits(negative, n, d)` is an integer part and exactly `d` decimals
   * which, read together as one number, give `n` back; `Fixed(x, d)` is
   * `FixedDigits(x < 0, n, d)` with `n` = |x|·10^d rounded half to even.
   */
  lemma FixedDigitsValue(negative: bool, n: nat, d: nat)
    requires d > 0
    ensures var (q, r) := DivMod(n, Pow10N(d));
      var whole, decimals := NatToString(q), PadDigits(r, d);
      && FixedDigits(negative, n, d) == (if negative then "-" else "") + whole + "." + decimals
      && |decimals| == d
      && DigitsValue(whole + decimals) == n
  {
    SplitDigitsValue(n, d);
  }

  lemma SplitDigitsValue(n: nat, d: nat)
    ensures var (q, r) := DivMod(n, Pow10N(d));
      DigitsValue(NatToString(q) + PadDigits(r, d)) == n
  {
    var (q, r) := DivMod(n, Pow10N(d));
    DigitsValueAppend(NatToString(q), PadDigits(r, d));
    NatToStringRoundTrip(q);
    PadDigitsValue(r, d);
  }

  // ---------------------------------------------------------------
  // String helpers (Python str methods on code-point sequences)
  // ---------------------------------------------------------------

  predicate StartsWith(s: string, prefix: string)
  {
    |prefix| <= |s| && s[..|prefix|] == prefix
  }

  /** `needle in haystack` for strings. */
  predicate Contains(haystack: string, needle: string)
  {
    |needle| <= |haystack| &&
    (haystack[..|needle|] == needle || Contains(haystack[1..], needle))
  }

  /** `s.split(sep)` for a one-character separator: the parts between separators, in order. */
  function Split(s: string, sep: char): (parts: seq<string>)
    ensures |parts| >= 1
    ensures forall i :: 0 <= i < |parts| ==> sep !in parts[i]
  {
    if |s| == 0 then [""]
    else
      var rest := Split(s[1..], sep);
      if s[0] == sep then [""] + rest
      else [[s[0]] + rest[0]] + rest[1..]
  }

  /** Joins parts with a separator string (Python `sep.join(parts)`). */
  function Join(parts: seq<string>, sep: string): string
  {
    if |parts| == 0 then ""
    else if |parts| == 1 then parts[0]
    else parts[0] + sep + Join(parts[1..], sep)
  }

  /** Joining the parts of a split with the separator gives back the text. */
  lemma {:induction false} SplitJoin(s: string, sep: char)
    ensures Join(Split(s, sep), [sep]) == s
  {
    if |s| > 0 {
      var rest := Split(s[1..], sep);
      SplitJoin(s[1..], sep);
      var parts := Split(s, sep);
      if s[0] == sep {
        assert parts[1..] == rest;
        assert s == [sep] + s[1..];
      } else {
        assert parts[0] == [s[0]] + rest[0] && parts[1..] == rest[1..];
        if |rest| > 1 {
          assert Join(rest, [sep]) == rest[0] + [sep] + Join(rest[1..], [sep]);
        }
        assert s == [s[0]] + s[1..];
      }
    }
  }

  /** A join of at least one part begins with the first part. */
  lemma JoinStartsWith(parts: seq<string>, sep: string)
    requires |parts| > 0
    ensures StartsWith(Join(parts, sep), parts[0])
  {
    var j := Join(parts, sep);
    if |parts| > 1 {
      assert j == parts[0] + (sep + Join(parts[1..], sep));
    }
    assert j[..|parts[0]|] == parts[0];
  }
}

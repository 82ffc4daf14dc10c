/** The Python built-ins and library calls the modelled code relies on: ordering and
    sorting of str values, dict comprehensions over enumerate, dict inversion,
    pandas' Series.unique, str slicing, str.find, str.lower, str.startswith and
    str.endswith, "03d" number formatting and random.sample. */
module Builtins {
  import opened Results

  /** No value occurs twice. */
  predicate Distinct<T(==)>(s: seq<T>)
  {
    forall i, j :: 0 <= i < j < |s| ==> s[i] != s[j]
  }

  // ---------------------------------------------------------------------------
  // Ordering of str values: Python compares code point by code point, and a
  // proper prefix comes first.
  // ---------------------------------------------------------------------------

  predicate Less(a: string, b: string)
  {
    if |a| == 0 then |b| > 0
    else if |b| == 0 then false
    else a[0] < b[0] || (a[0] == b[0] && Less(a[1..], b[1..]))
  }

  lemma {:induction false} LessIrreflexive(a: string)
    ensures !Less(a, a)
  {
    if |a| > 0 {
      LessIrreflexive(a[1..]);
    }
  }

  lemma {:induction false} LessTransitive(a: string, b: string, c: string)
    requires Less(a, b) && Less(b, c)
    ensures Less(a, c)
  {
    if |a| > 0 && a[0] == b[0] && b[0] == c[0] {
      LessTransitive(a[1..], b[1..], c[1..]);
    }
  }

  lemma {:induction false} LessTotal(a: string, b: string)
    ensures a == b || Less(a, b) || Less(b, a)
  {
    if |a| > 0 && |b| > 0 && a[0] == b[0] {
      LessTotal(a[1..], b[1..]);
      assert a == [a[0]] + a[1..] && b == [b[0]] + b[1..];
    }
  }

  predicate StrictlySorted(s: seq<string>)
  {
    forall i, j :: 0 <= i < j < |s| ==> Less(s[i], s[j])
  }

  /** Adds x to a strictly sorted list of str values and keeps it strictly sorted. */
  function Insert(x: string, s: seq<string>): (r: seq<string>)
    requires StrictlySorted(s)
    ensures StrictlySorted(r)
    ensures forall y :: y in r <==> y == x || y in s
    decreases |s|
  {
    if |s| == 0 then [x]
    else if x == s[0] then s
    else if Less(x, s[0]) then
      assert forall j :: 0 < j < |s| ==> Less(x, s[j]) by {
        forall j | 0 < j < |s|
          ensures Less(x, s[j])
        {
          LessTransitive(x, s[0], s[j]);
        }
      }
      [x] + s
    else
      LessTotal(x, s[0]);
      var t := Insert(x, s[1..]);
      assert forall y :: y in s[1..] ==> Less(s[0], y) by {
        forall y | y in s[1..]
          ensures Less(s[0], y)
        {
          var k :| 0 <= k < |s[1..]| && s[1..][k] == y;
          assert s[k + 1] == y;
        }
      }
      [s[0]] + t
  }

  /** sorted(set(xs)): the distinct str values of xs in ascending order. */
  function SortDistinct(xs: seq<string>): (r: seq<string>)
    ensures StrictlySorted(r)
    ensures forall y :: y in r <==> y in xs
  {
    if |xs| == 0 then []
    else
      assert xs == xs[..|xs| - 1] + [xs[|xs| - 1]];
      Insert(xs[|xs| - 1], SortDistinct(xs[..|xs| - 1]))
  }

  lemma SortedIsDistinct(s: seq<string>)
    requires StrictlySorted(s)
    ensures Distinct(s)
  {
    forall i, j | 0 <= i < j < |s|
      ensures s[i] != s[j]
    {
      LessIrreflexive(s[i]);
    }
  }

  // ---------------------------------------------------------------------------
  // Indexing a list or a numpy array.
  // ---------------------------------------------------------------------------

  /** Python's list index: a negative index counts from the end; anything else
      out of range raises IndexError. */
  function PyIndex(i: int, n: nat): (p: Option<nat>)
    ensures p.Some? <==> -(n as int) <= i < n
    ensures p.Some? ==> p.value < n && (p.value == i || p.value == i + n)
  {
    if 0 <= i < n then Some(i) else if -(n as int) <= i < 0 then Some(i + n) else None
  }

  // ---------------------------------------------------------------------------
  // Dictionaries built by comprehension.
  // ---------------------------------------------------------------------------

  /** {k: i for i, k in enumerate(keys)}: a later repeat of a key overwrites
      the index of an earlier one. */
  function Enumerate<T(!new)>(keys: seq<T>): (m: map<T, nat>)
    ensures forall k :: k in m <==> k in keys
    ensures forall k :: k in m ==> m[k] < |keys| && keys[m[k]] == k
    ensures Distinct(keys) ==> forall i :: 0 <= i < |keys| ==> m[keys[i]] == i
    ensures Distinct(keys) ==> |m| == |keys|
  {
    if |keys| == 0 then map[]
    else
      assert keys == keys[..|keys| - 1] + [keys[|keys| - 1]];
      assert Distinct(keys) ==> keys[|keys| - 1] !in keys[..|keys| - 1];
      Enumerate(keys[..|keys| - 1])[keys[|keys| - 1] := |keys| - 1]
  }

  predicate Injective<K, V(==)>(m: map<K, V>)
  {
    forall a, b :: a in m && b in m && a != b ==> m[a] != m[b]
  }

  /** {v: k for k, v in m.items()} for a dictionary whose values are all different. */
  function Invert<K(!new), V(==,!new)>(m: map<K, V>): (inv: map<V, K>)
    requires Injective(m)
    ensures forall v :: v in inv <==> v in m.Values
    ensures forall k :: k in m ==> m[k] in inv && inv[m[k]] == k
    ensures forall v :: v in inv ==> inv[v] in m && m[inv[v]] == v
  {
    map v | v in m.Values :: var k :| k in m && m[k] == v; k
  }

  /** On a strictly sorted list, the index dictionary numbers the strings in
      ascending order: it is an order isomorphism onto 0..|s|-1. */
  lemma EnumerateSorted(s: seq<string>)
    requires StrictlySorted(s)
    ensures Distinct(s)
    ensures forall a, b :: a in Enumerate(s) && b in Enumerate(s) ==>
              (Less(a, b) <==> Enumerate(s)[a] < Enumerate(s)[b])
    ensures Injective(Enumerate(s))
    ensures |Enumerate(s)| == |s|
    ensures forall i :: 0 <= i < |s| ==> i in Enumerate(s).Values
  {
    SortedIsDistinct(s);
    var m := Enumerate(s);
    forall i | 0 <= i < |s| ensures i in m.Values
    {
      assert m[s[i]] == i;
    }
    forall a, b | a in m && b in m
      ensures Less(a, b) <==> m[a] < m[b]
    {
      if m[a] < m[b] {
        assert Less(s[m[a]], s[m[b]]);
      } else if Less(a, b) {
        if m[a] == m[b] {
          LessIrreflexive(a);
        } else {
          assert Less(b, a);
          LessTransitive(a, b, a);
          LessIrreflexive(a);
        }
      }
    }
  }

  /** Inverting the index dictionary of a strictly sorted list gives the list
      back as a dictionary from positions. */
  lemma InvertEnumerateSorted(s: seq<string>)
    requires StrictlySorted(s)
    ensures Injective(Enumerate(s))
    ensures forall i: nat :: i in Invert(Enumerate(s)) <==> i < |s|
    ensures forall i: nat :: i < |s| ==> Invert(Enumerate(s))[i] == s[i]
  {
    EnumerateSorted(s);
    var m := Enumerate(s);
    var inv := Invert(m);
    forall i: nat | i < |s| ensures i in inv && inv[i] == s[i]
    {
      assert m[s[i]] == i;
    }
    forall i: nat | i in inv ensures i < |s|
    {
      assert m[inv[i]] == i;
    }
  }

  // ---------------------------------------------------------------------------
  // pandas' Series.unique: values in order of first appearance.
  // ---------------------------------------------------------------------------

  function Unique<T(==,!new)>(xs: seq<T>): (r: seq<T>)
    ensures Distinct(r)
    ensures forall y :: y in r <==> y in xs
  {
    if |xs| == 0 then []
    else
      var u := Unique(xs[..|xs| - 1]);
      assert xs == xs[..|xs| - 1] + [xs[|xs| - 1]];
      if xs[|xs| - 1] in u then u else u + [xs[|xs| - 1]]
  }

  /** The position of the first occurrence of y. */
  function FirstIndex<T(==)>(xs: seq<T>, y: T): (i: nat)
    requires y in xs
    ensures i < |xs| && xs[i] == y && y !in xs[..i]
  {
    if xs[0] == y then 0
    else
      var i := 1 + FirstIndex(xs[1..], y);
      assert xs[..i] == [xs[0]] + xs[1..][..i - 1];
      i
  }

  lemma FirstIndexIs<T(!new)>(xs: seq<T>, y: T, i: nat)
    requires i < |xs| && xs[i] == y && y !in xs[..i]
    ensures FirstIndex(xs, y) == i
  {
  }

  /** unique() lists the values in the order in which they first appear. */
  lemma {:induction false} UniqueFirstAppearance<T(!new)>(xs: seq<T>)
    ensures forall i, j :: 0 <= i < j < |Unique(xs)| ==>
              FirstIndex(xs, Unique(xs)[i]) < FirstIndex(xs, Unique(xs)[j])
  {
    if |xs| > 0 {
      var n := |xs| - 1;
      var p := xs[..n];
      var u := Unique(p);
      UniqueFirstAppearance(p);
      assert xs == p + [xs[n]];
      forall y | y in p
        ensures FirstIndex(xs, y) == FirstIndex(p, y)
      {
        var k := FirstIndex(p, y);
        assert xs[..k] == p[..k];
        FirstIndexIs(xs, y, k);
      }
      if xs[n] !in u {
        assert xs[..n] == p;
        FirstIndexIs(xs, xs[n], n);
        assert Unique(xs) == u + [xs[n]];
      }
    }
  }

  // ---------------------------------------------------------------------------
  // str operations.
  // ---------------------------------------------------------------------------

  predicate StartsWith(s: string, prefix: string)
  {
    |prefix| <= |s| && s[..|prefix|] == prefix
  }

  predicate EndsWith(s: string, suffix: string)
  {
    |suffix| <= |s| && s[|s| - |suffix|..] == suffix
  }

  /** s[a:b] for non-negative bounds: both bounds are clamped to len(s), and an
      empty range gives "". */
  function Slice(s: string, a: nat, b: nat): (r: string)
    ensures a <= b <= |s| ==> r == s[a..b]
    ensures |r| <= |s|
  {
    var hi := if b < |s| then b else |s|;
    if a < hi then s[a..hi] else []
  }

  function LowerChar(c: char): char
  {
    if 'A' <= c <= 'Z' then (c as int + 32) as char else c
  }

  /** str.lower() on the ASCII letters; every other character is kept. */
  function Lower(s: string): (r: string)
    ensures |r| == |s|
  {
    seq(|s|, i requires 0 <= i < |s| => LowerChar(s[i]))
  }

  predicate OccursAt(hay: string, needle: string, i: nat)
  {
    i + |needle| <= |hay| && hay[i..i + |needle|] == needle
  }

  /** str.find: the least index at which needle occurs in hay, or -1. */
  function Find(hay: string, needle: string): (r: int)
    ensures r == -1 || (0 <= r && OccursAt(hay, needle, r))
    ensures r == -1 ==> forall i :: 0 <= i ==> !OccursAt(hay, needle, i)
    ensures forall i :: 0 <= i < r ==> !OccursAt(hay, needle, i)
  {
    FindFrom(hay, needle, 0)
  }

  function FindFrom(hay: string, needle: string, k: nat): (r: int)
    requires forall i :: 0 <= i < k ==> !OccursAt(hay, needle, i)
    ensures r == -1 || (k <= r && OccursAt(hay, needle, r))
    ensures r == -1 ==> forall i :: 0 <= i ==> !OccursAt(hay, needle, i)
    ensures forall i :: 0 <= i < r ==> !OccursAt(hay, needle, i)
    decreases |hay| + 1 - k
  {
    if k + |needle| > |hay| then -1
    else if hay[k..k + |needle|] == needle then k
    else FindFrom(hay, needle, k + 1)
  }

  // ---------------------------------------------------------------------------
  // Decimal formatting: str(n) and f"{n:03d}".
  // ---------------------------------------------------------------------------

  predicate IsDigit(c: char)
  {
    '0' <= c <= '9'
  }

  predicate AllDigits(s: string)
  {
    forall i :: 0 <= i < |s| ==> IsDigit(s[i])
  }

  function Digit(d: nat): (c: char)
    requires d < 10
    ensures IsDigit(c)
  {
    ('0' as int + d) as char
  }

  function DigitValue(c: char): nat
    requires IsDigit(c)
  {
    c as int - '0' as int
  }

  /** The decimal digits of n, most significant first, with no leading zero. */
  function Decimal(n: nat): (s: string)
    ensures 1 <= |s| && AllDigits(s)
    ensures |s| > 1 ==> s[0] != '0'
  {
    if n < 10 then [Digit(n)] else Decimal(n / 10) + [Digit(n % 10)]
  }

  /** Reads a string of decimal digits back as a number (leading zeros allowed). */
  function ParseDecimal(s: string): nat
    requires AllDigits(s)
  {
    if |s| == 0 then 0 else 10 * ParseDecimal(s[..|s| - 1]) + DigitValue(s[|s| - 1])
  }

  lemma {:induction false} ParseDecimalOfDecimal(n: nat)
    ensures ParseDecimal(Decimal(n)) == n
  {
    if n >= 10 {
      var s := Decimal(n);
      assert s[..|s| - 1] == Decimal(n / 10);
      ParseDecimalOfDecimal(n / 10);
    }
  }

  function Zeros(k: nat): (z: string)
    ensures |z| == k && AllDigits(z)
  {
    seq(k, _ => '0')
  }

  lemma {:induction false} ParseZeros(k: nat)
    ensures ParseDecimal(Zeros(k)) == 0
  {
    if k > 0 {
      assert Zeros(k)[..k - 1] == Zeros(k - 1);
      ParseZeros(k - 1);
    }
  }

  lemma {:induction false} ParseLeadingZeros(k: nat, s: string)
    requires AllDigits(s)
    ensures ParseDecimal(Zeros(k) + s) == ParseDecimal(s)
    decreases |s|
  {
    if |s| == 0 {
      assert Zeros(k) + s == Zeros(k);
      ParseZeros(k);
    } else {
      var t := Zeros(k) + s;
      assert t[..|t| - 1] == Zeros(k) + s[..|s| - 1];
      ParseLeadingZeros(k, s[..|s| - 1]);
    }
  }

  /** f"{n:03d}": n in decimal, left-padded with zeros to at least three digits. */
  function Pad3(n: nat): (s: string)
    ensures |s| >= 3
  {
    var d := Decimal(n);
    if |d| >= 3 then d else Zeros(3 - |d|) + d
  }

  /** The padded digits read back as the number. */
  lemma Pad3Parse(n: nat)
    ensures AllDigits(Pad3(n)) && ParseDecimal(Pad3(n)) == n
  {
    var d := Decimal(n);
    ParseDecimalOfDecimal(n);
    if |d| < 3 {
      ParseLeadingZeros(3 - |d|, d);
    }
  }

  /** f"{prefix}{n:03d}": the prefix letter followed by Pad3(n). */
  function FormatId(prefix: char, n: nat): (id: string)
    ensures |id| >= 4 && id[0] == prefix
  {
    [prefix] + Pad3(n)
  }

  /** The number can be read back from the id. */
  lemma FormatIdParse(prefix: char, n: nat)
    ensures AllDigits(FormatId(prefix, n)[1..]) && ParseDecimal(FormatId(prefix, n)[1..]) == n
  {
    assert FormatId(prefix, n)[1..] == Pad3(n);
    Pad3Parse(n);
  }

  /** Different numbers give different ids. */
  lemma FormatIdInjective(prefix: char, a: nat, b: nat)
    requires a != b
    ensures FormatId(prefix, a) != FormatId(prefix, b)
  {
    FormatIdParse(prefix, a);
    FormatIdParse(prefix, b);
  }

  lemma DistinctRemove<T>(s: seq<T>, j: nat)
    requires Distinct(s) && j < |s|
    ensures Distinct(s[..j] + s[j + 1..])
    ensures s[j] !in s[..j] + s[j + 1..]
    ensures forall x :: x in s[..j] + s[j + 1..] ==> x in s
  {
    var t := s[..j] + s[j + 1..];
    assert forall a :: 0 <= a < |t| ==> t[a] == s[if a < j then a else a + 1];
  }

  // ---------------------------------------------------------------------------
  // random.sample.
  // ---------------------------------------------------------------------------

  /** random.sample(population, k): k elements taken from distinct positions of
      the population, in the order drawn. Each draw is an arbitrary choice. */
  method Sample<T(==)>(population: seq<T>, k: nat) returns (r: seq<T>)
    requires k <= |population|
    ensures |r| == k
    ensures multiset(r) <= multiset(population)
    ensures forall x :: x in r ==> x in population
    ensures Distinct(population) ==> Distinct(r)
  {
    var rest := population;
    r := [];
    while |r| < k
      invariant |r| <= k
      invariant |r| + |rest| == |population|
      invariant multiset(r) + multiset(rest) == multiset(population)
      invariant Distinct(population) ==>
                  Distinct(r) && Distinct(rest) && forall x :: x in r ==> x !in rest
    {
      var j :| 0 <= j < |rest|;
      var x := rest[j];
      assert rest == rest[..j] + [x] + rest[j + 1..];
      if Distinct(population) {
        DistinctRemove(rest, j);
        assert x !in r;
        assert forall a :: 0 <= a < |r| ==> (r + [x])[a] == r[a];
      }
      r := r + [x];
      rest := rest[..j] + rest[j + 1..];
    }
    assert forall x :: x in r ==> x in multiset(population);
  }
}

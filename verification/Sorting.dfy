/** Ordering: byte-wise string order, the standard library's in-place sort seen through its
    result, and binary search. */
module Sorting {

  // ----- String order -----

  predicate StringLess(a: string, b: string) {
    b != [] && (a == [] || a[0] < b[0] || (a[0] == b[0] && StringLess(a[1..], b[1..])))
  }

  lemma {:induction false} StringLessIrreflexive(a: string)
    ensures !StringLess(a, a)
  {
    if a != [] { StringLessIrreflexive(a[1..]); }
  }

  lemma {:induction false} StringLessTransitive(a: string, b: string, c: string)
    requires StringLess(a, b) && StringLess(b, c)
    ensures StringLess(a, c)
  {
    if a != [] && a[0] == b[0] && b[0] == c[0] {
      StringLessTransitive(a[1..], b[1..], c[1..]);
    }
  }

  lemma {:induction false} StringLessConnected(a: string, b: string)
    ensures a == b || StringLess(a, b) || StringLess(b, a)
  {
    if a != [] && b != [] && a[0] == b[0] {
      StringLessConnected(a[1..], b[1..]);
      assert a == [a[0]] + a[1..] && b == [b[0]] + b[1..];
    }
  }

  /** a and b agree up to n, where a ends or has the smaller character. */
  predicate FirstDifference(a: string, b: string, n: nat) {
    n <= |a| && n < |b| && (forall i | 0 <= i < n :: a[i] == b[i]) && (n == |a| || a[n] < b[n])
  }

  /** The order is that of the dictionary. */
  lemma {:induction false} StringLessIff(a: string, b: string)
    ensures StringLess(a, b) <==> exists n: nat :: FirstDifference(a, b, n)
  {
    if a == [] || b == [] || a[0] != b[0] {
      if StringLess(a, b) { assert FirstDifference(a, b, 0); }
    } else {
      StringLessIff(a[1..], b[1..]);
      if n: nat :| FirstDifference(a[1..], b[1..], n) {
        assert forall i | 1 <= i < n + 1 :: a[i] == a[1..][i - 1] == b[1..][i - 1] == b[i];
        assert FirstDifference(a, b, n + 1);
      }
      if n: nat :| FirstDifference(a, b, n) {
        assert FirstDifference(a[1..], b[1..], n - 1);
      }
    }
  }

  lemma StringOrderIsTotal(domain: set<string>)
    ensures TotalOrderOn(StringLess, domain)
  {
    forall a | a in domain ensures !StringLess(a, a) {
      StringLessIrreflexive(a);
    }
    forall a, b | a in domain && b in domain ensures a == b || StringLess(a, b) || StringLess(b, a) {
      StringLessConnected(a, b);
    }
    forall a, b, c | a in domain && b in domain && c in domain && StringLess(a, b) && StringLess(b, c)
      ensures StringLess(a, c)
    {
      StringLessTransitive(a, b, c);
    }
  }

  // ----- Orders and sorted sequences -----

  /** less is a strict total order on the given elements. */
  ghost predicate TotalOrderOn<T>(less: (T, T) -> bool, domain: set<T>) {
    && (forall a | a in domain :: !less(a, a))
    && (forall a, b | a in domain && b in domain :: a == b || less(a, b) || less(b, a))
    && (forall a, b, c | a in domain && b in domain && c in domain && less(a, b) && less(b, c) :: less(a, c))
  }

  ghost predicate Sorted<T>(less: (T, T) -> bool, s: seq<T>) {
    forall i, j | 0 <= i < j < |s| :: less(s[i], s[j])
  }

  function Elements<T>(s: seq<T>): set<T> {
    set x | x in s
  }

  ghost predicate NoDuplicates<T>(s: seq<T>) {
    forall i, j | 0 <= i < j < |s| :: s[i] != s[j]
  }

  lemma {:induction false} DistinctSize<T>(s: seq<T>)
    requires NoDuplicates(s)
    ensures |Elements(s)| == |s|
  {
    if s != [] {
      var front, x := s[..|s| - 1], s[|s| - 1];
      DistinctSize(front);
      assert s == front + [x];
      assert Elements(s) == Elements(front) + {x};
    }
  }

  lemma SortedHasNoDuplicates<T>(less: (T, T) -> bool, s: seq<T>)
    requires TotalOrderOn(less, Elements(s)) && Sorted(less, s)
    ensures NoDuplicates(s)
  {
    forall i, j | 0 <= i < j < |s| ensures s[i] != s[j] {
      assert s[i] in Elements(s);
      assert less(s[i], s[j]);
    }
  }

  lemma NoElements<T>(s: seq<T>)
    ensures Elements(s) == {} <==> s == []
  {
    if s != [] { assert s[0] in Elements(s); }
  }

  /** A sorted listing of a set is determined by the set: the order in which a map was walked
      before sorting cannot show. */
  lemma {:induction false} SortedUnique<T>(less: (T, T) -> bool, a: seq<T>, b: seq<T>)
    requires TotalOrderOn(less, Elements(a))
    requires Sorted(less, a) && Sorted(less, b) && Elements(a) == Elements(b)
    ensures a == b
  {
    if a == [] {
      NoElements(b);
    } else {
      assert a[0] in Elements(b);
      assert b != [];
      assert b[0] in Elements(a);
      var i :| 0 <= i < |b| && b[i] == a[0];
      var j :| 0 <= j < |a| && a[j] == b[0];
      assert a[0] == b[0];
      SortedHasNoDuplicates(less, a);
      SortedHasNoDuplicates(less, b);
      assert Elements(a[1..]) == Elements(a) - {a[0]};
      assert Elements(b[1..]) == Elements(b) - {b[0]};
      SortedUnique(less, a[1..], b[1..]);
      assert a == [a[0]] + a[1..] && b == [b[0]] + b[1..];
    }
  }

  // ----- The library sort, specified by its result -----

  function Insert<T>(x: T, s: seq<T>, less: (T, T) -> bool): (r: seq<T>)
    ensures multiset(r) == multiset(s) + multiset{x}
    ensures |r| == |s| + 1
  {
    if s == [] then [x]
    else if less(x, s[0]) then [x] + s
    else
      assert s == [s[0]] + s[1..];
      [s[0]] + Insert(x, s[1..], less)
  }

  /** The ordering a library sort leaves behind. Go's sort.Slice is not stable, but on the total
      orders used here the result is unique (SortedUnique), so one algorithm stands for all. */
  function SortBy<T>(s: seq<T>, less: (T, T) -> bool): (r: seq<T>)
    ensures multiset(r) == multiset(s)
    ensures |r| == |s|
  {
    if s == [] then []
    else
      assert s == [s[0]] + s[1..];
      Insert(s[0], SortBy(s[1..], less), less)
  }

  function RemoveAt<T>(s: seq<T>, i: nat): (r: seq<T>)
    requires i < |s|
  {
    s[..i] + s[i+1..]
  }

  lemma RemoveAtMultiset<T>(s: seq<T>, i: nat)
    requires i < |s|
    ensures multiset(RemoveAt(s, i)) == multiset(s) - multiset{s[i]}
  {
    assert s == s[..i] + [s[i]] + s[i+1..];
  }

  /** The first element of a sequence sits somewhere in any permutation of it. */
  lemma FindFirst<T>(a: seq<T>, b: seq<T>) returns (i: nat)
    requires a != [] && multiset(a) == multiset(b)
    ensures i < |b| && b[i] == a[0]
    ensures multiset(a[1..]) == multiset(RemoveAt(b, i))
  {
    assert a == [a[0]] + a[1..];
    assert a[0] in multiset(b);
    i :| 0 <= i < |b| && b[i] == a[0];
    RemoveAtMultiset(b, i);
  }

  lemma MultisetElements<T>(a: seq<T>, b: seq<T>)
    requires multiset(a) == multiset(b)
    ensures Elements(a) == Elements(b) && |a| == |b|
  {
    assert |multiset(a)| == |a| && |multiset(b)| == |b|;
    forall x ensures x in a <==> x in b {
      assert x in a <==> x in multiset(a);
      assert x in b <==> x in multiset(b);
    }
  }

  lemma {:induction false} InsertSorted<T>(x: T, s: seq<T>, less: (T, T) -> bool)
    requires x !in s && TotalOrderOn(less, Elements(s) + {x})
    requires Sorted(less, s)
    ensures Sorted(less, Insert(x, s, less))
  {
    if s != [] && !less(x, s[0]) {
      assert s[0] in Elements(s);
      assert less(s[0], x);
      assert Elements(s[1..]) <= Elements(s);
      InsertSorted(x, s[1..], less);
      var tail := Insert(x, s[1..], less);
      forall y | y in tail ensures less(s[0], y) {
        assert y in multiset(tail);
        if y != x {
          assert y in multiset(s[1..]);
          var k :| 0 <= k < |s[1..]| && s[1..][k] == y;
          assert less(s[0], s[k + 1]);
        }
      }
    } else if s != [] {
      forall k | 0 <= k < |s| ensures less(x, s[k]) {
        assert s[0] in Elements(s) && s[k] in Elements(s);
      }
    }
  }

  lemma {:induction false} SortBySorted<T>(s: seq<T>, less: (T, T) -> bool)
    requires NoDuplicates(s) && TotalOrderOn(less, Elements(s))
    ensures Sorted(less, SortBy(s, less))
    ensures Elements(SortBy(s, less)) == Elements(s)
  {
    MultisetElements(SortBy(s, less), s);
    if s != [] {
      var tail := SortBy(s[1..], less);
      HeadAndTail(s);
      TotalOrderWithin(less, Elements(s[1..]), Elements(s));
      SortBySorted(s[1..], less);
      hide Insert, TotalOrderOn, NoDuplicates;
      assert Elements(tail) + {s[0]} == Elements(s) && s[0] !in tail by { assert forall x :: x in tail <==> x in Elements(tail); }
      InsertSorted(s[0], tail, less);
    }
  }

  lemma HeadAndTail<T>(s: seq<T>)
    requires s != [] && NoDuplicates(s)
    ensures Elements(s) == Elements(s[1..]) + {s[0]} && s[0] !in Elements(s[1..]) && NoDuplicates(s[1..])
  {
    assert s == [s[0]] + s[1..];
  }

  lemma TotalOrderWithin<T>(less: (T, T) -> bool, part: set<T>, domain: set<T>)
    requires TotalOrderOn(less, domain) && part <= domain
    ensures TotalOrderOn(less, part)
  {
  }

  /** Sorting forgets the order its input arrived in. */
  lemma SortByOrderFree<T>(a: seq<T>, b: seq<T>, less: (T, T) -> bool)
    requires NoDuplicates(a) && NoDuplicates(b) && Elements(a) == Elements(b)
    requires TotalOrderOn(less, Elements(a))
    ensures SortBy(a, less) == SortBy(b, less)
  {
    SortBySorted(a, less);
    SortBySorted(b, less);
    SortedUnique(less, SortBy(a, less), SortBy(b, less));
  }

  /** A sequence already in order is what sorting produces. */
  lemma SortByOfSorted<T>(s: seq<T>, r: seq<T>, less: (T, T) -> bool)
    requires NoDuplicates(s) && TotalOrderOn(less, Elements(s))
    requires Sorted(less, r) && Elements(r) == Elements(s)
    ensures SortBy(s, less) == r
  {
    SortBySorted(s, less);
    SortedUnique(less, SortBy(s, less), r);
  }

  // ----- Sorted key listings -----

  /** The keys of a set in string order: the value of the source's sortedKeys. */
  ghost function SortedKeys(keys: set<string>): (r: seq<string>)
    ensures Sorted(StringLess, r) && Elements(r) == keys
  {
    if keys == {} then []
    else
      var k :| k in keys;
      var rest := SortedKeys(keys - {k});
      InsertKey(k, rest, keys);
      Insert(k, rest, StringLess)
  }

  lemma InsertKey(k: string, rest: seq<string>, keys: set<string>)
    requires Sorted(StringLess, rest) && k in keys && Elements(rest) == keys - {k}
    ensures Sorted(StringLess, Insert(k, rest, StringLess)) && Elements(Insert(k, rest, StringLess)) == keys
  {
    assert k !in rest by { assert k !in Elements(rest); }
    hide Insert, Sorted, TotalOrderOn, StringLess;
    StringOrderIsTotal(keys);
    assert Elements(rest) + {k} == keys;
    InsertSorted(k, rest, StringLess);
    assert multiset(Insert(k, rest, StringLess)) == multiset([k] + rest);
    MultisetElements(Insert(k, rest, StringLess), [k] + rest);
    assert Elements([k] + rest) == {k} + Elements(rest);
  }

  lemma SortedKeysDistinct(keys: set<string>)
    ensures NoDuplicates(SortedKeys(keys))
  {
    StringOrderIsTotal(keys);
    SortedHasNoDuplicates(StringLess, SortedKeys(keys));
  }

  lemma SortedKeysUnique(keys: set<string>, r: seq<string>)
    requires Sorted(StringLess, r) && Elements(r) == keys
    ensures r == SortedKeys(keys)
  {
    StringOrderIsTotal(keys);
    SortedUnique(StringLess, r, SortedKeys(keys));
  }

  /** A set of strings walked in arbitrary order, then sorted. */
  method CollectSortedKeys(keys: set<string>) returns (r: seq<string>)
    ensures r == SortedKeys(keys)
  {
    var pending := keys;
    var listing: seq<string> := [];
    while pending != {}
      invariant pending <= keys && Elements(listing) == keys - pending
      invariant NoDuplicates(listing)
      decreases pending
    {
      var k :| k in pending;
      assert k !in Elements(listing);
      assert Elements(listing + [k]) == Elements(listing) + {k};
      listing := listing + [k];
      pending := pending - {k};
    }
    StringOrderIsTotal(keys);
    SortBySorted(listing, StringLess);
    r := SortBy(listing, StringLess);
    SortedKeysUnique(keys, r);
  }
}

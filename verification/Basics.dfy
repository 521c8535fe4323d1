/** Optional values, results, and idealised checksums shared by every component. */
module Basics {

  datatype Option<+T> = None | Some(value: T)

  datatype Result<+T, +E> = Ok(value: T) | Err(error: E)

  /** Instants are integers (nanoseconds); only their order matters here. */
  type Time = int

  /** The zero instant, which the source treats as "timestamp missing". */
  const ZERO_TIME: Time := 0

  type Bytes = seq<bv8>

  /** One more than the greatest 64-bit unsigned integer. */
  const UINT64_LIMIT: nat := 0x1_0000_0000_0000_0000

  type UInt64 = n: nat | n < UINT64_LIMIT

  /** The length of a string as Go counts it, in bytes of UTF-8. */
  function Utf8Length(s: string): nat {
    if s == [] then 0
    else
      var c := s[0] as int;
      (if c < 0x80 then 1 else if c < 0x800 then 2 else if c < 0x1_0000 then 3 else 4) + Utf8Length(s[1..])
  }

  /** SHA-256 is idealised as an injective function, so a digest is represented by its preimage:
      equal digests have equal preimages. */
  datatype ContentSha = ContentSha(preimage: Bytes)

  /** A value stored together with a digest; digestOf is the value that digest was taken of. */
  datatype Sealed<+T> = Sealed(value: T, digestOf: T)

  function Seal<T>(value: T): Sealed<T> {
    Sealed(value, value)
  }

  predicate Intact<T(==)>(stored: Sealed<T>) {
    stored.digestOf == stored.value
  }

  function Min(a: int, b: int): int {
    if b < a then b else a
  }

  function Max(a: int, b: int): int {
    if b > a then b else a
  }

  /** The elements of a sequence that satisfy p, in order. */
  function Filter<T>(s: seq<T>, p: T -> bool): (r: seq<T>)
    ensures |r| <= |s|
    ensures forall x | x in r :: x in s && p(x)
    ensures forall x | x in s && p(x) :: x in r
  {
    if s == [] then []
    else (if p(s[0]) then [s[0]] else []) + Filter(s[1..], p)
  }

  lemma {:induction false} FilterAppend<T>(a: seq<T>, b: seq<T>, p: T -> bool)
    ensures Filter(a + b, p) == Filter(a, p) + Filter(b, p)
  {
    if a == [] {
      assert a + b == b;
    } else {
      assert (a + b)[0] == a[0] && (a + b)[1..] == a[1..] + b;
      FilterAppend(a[1..], b, p);
    }
  }

  lemma {:induction false} FilterNone<T>(s: seq<T>, p: T -> bool)
    requires forall x | x in s :: !p(x)
    ensures Filter(s, p) == []
  {
    if s != [] { FilterNone(s[1..], p); }
  }

  lemma FilterCons<T>(x: T, s: seq<T>, p: T -> bool)
    ensures multiset(Filter([x] + s, p)) == multiset(Filter(s, p)) + if p(x) then multiset{x} else multiset{}
  {
    assert ([x] + s)[1..] == s;
    assert Filter([x] + s, p) == (if p(x) then [x] else []) + Filter(s, p);
  }

  /** Two selections that share nothing make up their union. */
  lemma {:induction false} FilterDisjoint<T>(s: seq<T>, p: T -> bool, q: T -> bool, r: T -> bool)
    requires forall x | x in s :: (r(x) <==> p(x) || q(x)) && !(p(x) && q(x))
    ensures multiset(Filter(s, r)) == multiset(Filter(s, p)) + multiset(Filter(s, q))
  {
    if s != [] {
      var x, tail := s[0], s[1..];
      assert s == [x] + tail;
      FilterDisjoint(tail, p, q, r);
      FilterCons(x, tail, p);
      FilterCons(x, tail, q);
      FilterCons(x, tail, r);
    }
  }

  lemma {:induction false} FilterAll<T>(s: seq<T>, p: T -> bool)
    requires forall x | x in s :: p(x)
    ensures Filter(s, p) == s
  {
    if s != [] { FilterAll(s[1..], p); }
  }
}

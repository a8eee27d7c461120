/** Failure-compatible results and the unsigned 64-bit arithmetic the agent relies on. */
module Basics {
  datatype Option<+T> = None | Some(value: T)

  datatype Result<+T, +E> = Ok(value: T) | Err(error: E)

  const U64_MAX: nat := 0xFFFF_FFFF_FFFF_FFFF

  /** The value a saturating u64 computation shows for the true value `n`. */
  function Cap(n: nat): (r: nat)
    ensures r <= n && r <= 0xFFFF_FFFF_FFFF_FFFF && (r == n || r == 0xFFFF_FFFF_FFFF_FFFF)
  {
    if n <= U64_MAX then n else U64_MAX
  }

  function SaturatingAdd(a: nat, b: nat): nat {
    Cap(a + b)
  }

  function SaturatingMul(a: nat, b: nat): nat {
    Cap(a * b)
  }
}

/** The library sort, as a specification: any ordered permutation under a total preorder. */
module Sorting {
  ghost predicate TotalPreorder<T(!new)>(le: (T, T) -> bool) {
    && (forall a, b :: le(a, b) || le(b, a))
    && (forall a, b, c :: le(a, b) && le(b, c) ==> le(a, c))
  }

  ghost predicate SortedBy<T>(s: seq<T>, le: (T, T) -> bool) {
    forall i, j :: 0 <= i < j < |s| ==> le(s[i], s[j])
  }

  function Insert<T>(x: T, s: seq<T>, le: (T, T) -> bool): (r: seq<T>)
    ensures multiset(r) == multiset(s) + multiset{x}
  {
    if s == [] then
      [x]
    else if le(x, s[0]) then
      [x] + s
    else
      assert s == [s[0]] + s[1..];
      [s[0]] + Insert(x, s[1..], le)
  }

  lemma {:induction false} InsertSorted<T(!new)>(x: T, s: seq<T>, le: (T, T) -> bool)
    requires TotalPreorder(le) && SortedBy(s, le)
    ensures SortedBy(Insert(x, s, le), le)
  {
    if s != [] && !le(x, s[0]) {
      var rest := Insert(x, s[1..], le);
      InsertSorted(x, s[1..], le);
      forall y | y in rest ensures le(s[0], y) {
        assert y in multiset(rest);
        assert y in s[1..] || y == x;
      }
    }
  }

  /** Sorts `s`; elements equivalent under `le` may come out in either order. */
  function Sort<T(!new)>(s: seq<T>, le: (T, T) -> bool): (r: seq<T>)
    requires TotalPreorder(le)
    ensures SortedBy(r, le)
    ensures multiset(r) == multiset(s)
    ensures |r| == |s|
  {
    if s == [] then
      []
    else
      assert s == [s[0]] + s[1..];
      InsertSorted(s[0], Sort(s[1..], le), le);
      var r := Insert(s[0], Sort(s[1..], le), le);
      assert |r| == |multiset(r)| == |multiset(s)| == |s|;
      r
  }

  function Take<T>(s: seq<T>, n: nat): (r: seq<T>)
    ensures r <= s && |r| == if n < |s| then n else |s|
  {
    if n <= |s| then s[..n] else s
  }
}

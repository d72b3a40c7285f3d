/** Sequence helpers standing for the query operators the source delegates to its ORM:
    a `where` filter, `findFirst`, `orderBy` on one numeric column and `take`. */
module Seqs {
  import opened Wrappers

  /** `r` is `s` with some elements left out and the rest in their order: each element of
      `r` is matched, left to right, to the earliest unmatched equal element of `s`. */
  predicate Subsequence<T(==)>(r: seq<T>, s: seq<T>)
    decreases |s|
  {
    r == [] || (s != [] && if r[0] == s[0] then Subsequence(r[1..], s[1..]) else Subsequence(r, s[1..]))
  }

  /** The elements of `s` that satisfy `p`, in table order. */
  function Filter<T>(s: seq<T>, p: T -> bool): (r: seq<T>)
    ensures |r| <= |s|
    ensures forall i :: 0 <= i < |r| ==> p(r[i])
    ensures forall i :: 0 <= i < |s| && p(s[i]) ==> s[i] in r
    ensures forall i :: 0 <= i < |r| ==> r[i] in s
    ensures Subsequence(r, s)
    decreases |s|
  {
    if s == [] then []
    else if p(s[0]) then
      var t := Filter(s[1..], p);
      assert ([s[0]] + t)[1..] == t;
      [s[0]] + t
    else Filter(s[1..], p)
  }

  /** Filtering keeps exactly the occurrences that satisfy `p`: nothing is duplicated or lost. */
  lemma {:induction false} FilterMultiset<T>(s: seq<T>, p: T -> bool)
    ensures multiset(Filter(s, p)) <= multiset(s)
    ensures forall x :: p(x) ==> multiset(Filter(s, p))[x] == multiset(s)[x]
    decreases |s|
  {
    if s != [] {
      FilterMultiset(s[1..], p);
      assert s == [s[0]] + s[1..];
    }
  }

  /** The first element of `s` (in table order) that satisfies `p`, as `findFirst` returns it. */
  function FindFirst<T>(s: seq<T>, p: T -> bool): (r: Option<T>)
    ensures r.Some? ==> r.value in s && p(r.value)
    ensures r.None? <==> forall i :: 0 <= i < |s| ==> !p(s[i])
    decreases |s|
  {
    if s == [] then None
    else if p(s[0]) then Some(s[0])
    else FindFirst(s[1..], p)
  }

  /** The index of the element `FindFirst` returns: no earlier element satisfies `p`. */
  lemma {:induction false} FindFirstIsFirst<T>(s: seq<T>, p: T -> bool)
    requires FindFirst(s, p).Some?
    ensures exists i :: 0 <= i < |s| && s[i] == FindFirst(s, p).value && forall j :: 0 <= j < i ==> !p(s[j])
    decreases |s|
  {
    if !p(s[0]) {
      FindFirstIsFirst(s[1..], p);
      var i :| 0 <= i < |s[1..]| && s[1..][i] == FindFirst(s[1..], p).value && forall j :: 0 <= j < i ==> !p(s[1..][j]);
      assert s[i + 1] == FindFirst(s, p).value;
      assert forall j :: 0 <= j < i + 1 ==> !p(s[j]) by {
        forall j | 0 <= j < i + 1 ensures !p(s[j]) {
          if j > 0 { assert s[j] == s[1..][j - 1]; }
        }
      }
    } else {
      assert s[0] == FindFirst(s, p).value;
    }
  }

  /** `s` is in ascending order of `key`. */
  predicate SortedBy<T>(s: seq<T>, key: T -> int) {
    forall i, j :: 0 <= i < j < |s| ==> key(s[i]) <= key(s[j])
  }

  /** Inserts `x` before the first element whose key is not smaller. */
  function Insert<T>(x: T, s: seq<T>, key: T -> int): (r: seq<T>)
    requires SortedBy(s, key)
    ensures |r| == |s| + 1
    ensures r[0] == x || (s != [] && r[0] == s[0])
    ensures SortedBy(r, key)
    ensures multiset(r) == multiset(s) + multiset{x}
    decreases |s|
  {
    if s == [] then [x]
    else if key(x) <= key(s[0]) then [x] + s
    else
      var t := Insert(x, s[1..], key);
      assert key(s[0]) <= key(t[0]);
      assert forall j :: 0 <= j < |t| ==> key(s[0]) <= key(t[j]);
      assert s == [s[0]] + s[1..];
      [s[0]] + t
  }

  /** Insertion sort on `key`, ascending; elements with equal keys keep their table order. */
  function SortByKey<T>(s: seq<T>, key: T -> int): (r: seq<T>)
    ensures SortedBy(r, key)
    ensures multiset(r) == multiset(s)
    ensures |r| == |s|
    decreases |s|
  {
    if s == [] then []
    else
      assert s == [s[0]] + s[1..];
      Insert(s[0], SortByKey(s[1..], key), key)
  }

  /** The first `n` elements, or all of them when there are fewer (`take: n`). */
  function Take<T>(s: seq<T>, n: nat): (r: seq<T>)
    ensures |r| <= n && |r| <= |s|
    ensures |r| == if |s| < n then |s| else n
    ensures r == s[..|r|]
    ensures multiset(r) <= multiset(s)
  {
    if |s| <= n then s
    else
      assert s == s[..n] + s[n..];
      s[..n]
  }

  /** Taking a prefix of a sorted sequence keeps its smallest keys: whatever is left out,
      in whole or in part, has a key no smaller than any element kept. */
  lemma TakeKeepsSmallest<T>(s: seq<T>, key: T -> int, n: nat)
    requires SortedBy(s, key)
    ensures forall x | multiset(Take(s, n))[x] < multiset(s)[x] ::
              forall i | 0 <= i < |Take(s, n)| :: key(Take(s, n)[i]) <= key(x)
  {
    var r := Take(s, n);
    assert s == r + s[|r|..];
    assert multiset(s) == multiset(r) + multiset(s[|r|..]);
    forall x | multiset(r)[x] < multiset(s)[x]
      ensures forall i | 0 <= i < |r| :: key(r[i]) <= key(x)
    {
      var rest := s[|r|..];
      assert x in multiset(rest);
      assert x in rest;
      var j :| 0 <= j < |rest| && rest[j] == x;
      forall i | 0 <= i < |r| ensures key(r[i]) <= key(x) {
        assert s[i] == r[i] && s[|r| + j] == x;
      }
    }
  }
}

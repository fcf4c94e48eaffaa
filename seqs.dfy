/** Sequence operations behind the ORM's query results: `where` (Filter),
    `orderBy` on a numeric column (SortBy, SortByDesc), `take` (Take) and the
    `filter(...).length` counts of the handlers (Count). */
module Seqs {
  import opened Common

  /** The elements of `s` that satisfy `p`, in their original order. */
  function Filter<T(!new)>(s: seq<T>, p: T -> bool): (r: seq<T>)
    ensures |r| <= |s|
    ensures forall x :: x in r <==> x in s && p(x)
    ensures forall i :: 0 <= i < |r| ==> p(r[i])
    ensures forall x :: multiset(r)[x] == if p(x) then multiset(s)[x] else 0
  {
    if |s| == 0 then []
    else
      var rest := Filter(s[1..], p);
      assert s == [s[0]] + s[1..];
      if p(s[0]) then [s[0]] + rest else rest
  }

  /** When every element satisfies `p`, filtering keeps the sequence. */
  lemma {:induction false} FilterAll<T(!new)>(s: seq<T>, p: T -> bool)
    requires forall i :: 0 <= i < |s| ==> p(s[i])
    ensures Filter(s, p) == s
  {
    if |s| > 0 {
      FilterAll(s[1..], p);
    }
  }

  predicate StrictlyIncreasing<T>(s: seq<T>, key: T -> int) {
    forall i, j :: 0 <= i < j < |s| ==> key(s[i]) < key(s[j])
  }

  /** Filtering keeps the relative order of the kept elements. */
  lemma {:induction false} FilterKeepsIncreasing<T(!new)>(s: seq<T>, p: T -> bool, key: T -> int)
    requires StrictlyIncreasing(s, key)
    ensures StrictlyIncreasing(Filter(s, p), key)
  {
    if |s| > 0 {
      var tail := s[1..];
      TailIncreasing(s, key);
      FilterKeepsIncreasing(tail, p, key);
      var rest := Filter(tail, p);
      if p(s[0]) {
        assert forall x :: x in rest ==> x in tail;
        PrependIncreasing(s[0], tail, rest, key);
      }
    }
  }

  lemma TailIncreasing<T>(s: seq<T>, key: T -> int)
    requires |s| > 0 && StrictlyIncreasing(s, key)
    ensures StrictlyIncreasing(s[1..], key)
    ensures forall x :: x in s[1..] ==> key(s[0]) < key(x)
  {
    var tail := s[1..];
    forall i, j | 0 <= i < j < |tail|
      ensures key(tail[i]) < key(tail[j])
    {
      assert tail[i] == s[i + 1] && tail[j] == s[j + 1];
    }
    forall x | x in tail
      ensures key(s[0]) < key(x)
    {
      var k :| 0 <= k < |tail| && tail[k] == x;
      assert s[k + 1] == x;
    }
  }

  lemma PrependIncreasing<T>(x: T, tail: seq<T>, rest: seq<T>, key: T -> int)
    requires forall y :: y in tail ==> key(x) < key(y)
    requires forall y :: y in rest ==> y in tail
    requires StrictlyIncreasing(rest, key)
    ensures StrictlyIncreasing([x] + rest, key)
  {
    var r := [x] + rest;
    forall i, j | 0 <= i < j < |r|
      ensures key(r[i]) < key(r[j])
    {
      assert r[j] == rest[j - 1];
      if i > 0 {
        assert r[i] == rest[i - 1];
      } else {
        assert r[j] in rest;
      }
    }
  }

  /** The number of elements of `s` that satisfy `p`. */
  function Count<T(!new)>(s: seq<T>, p: T -> bool): (n: nat)
    ensures n <= |s|
    ensures n == |Filter(s, p)|
    ensures n == 0 <==> forall i :: 0 <= i < |s| ==> !p(s[i])
  {
    if |s| == 0 then 0
    else
      assert forall i :: 0 < i < |s| ==> s[i] == s[1..][i - 1];
      (if p(s[0]) then 1 else 0) + Count(s[1..], p)
  }

  /** One step of `Count`: the head is counted, then the tail. */
  lemma CountCons<T(!new)>(s: seq<T>, p: T -> bool)
    requires |s| > 0
    ensures Count(s, p) == (if p(s[0]) then 1 else 0) + Count(s[1..], p)
  {
  }

  /** Two predicates that never hold together count at most the whole sequence. */
  lemma {:induction false} CountDisjoint<T(!new)>(s: seq<T>, p: T -> bool, q: T -> bool)
    requires forall x :: !(p(x) && q(x))
    ensures Count(s, p) + Count(s, q) <= |s|
  {
    if |s| > 0 {
      CountDisjoint(s[1..], p, q);
    }
  }

  /** Every element satisfies exactly one of a predicate and its negation `q`. */
  lemma {:induction false} CountComplement<T(!new)>(s: seq<T>, p: T -> bool, q: T -> bool)
    requires forall x :: q(x) <==> !p(x)
    ensures Count(s, p) + Count(s, q) == |s|
  {
    if |s| > 0 {
      CountComplement(s[1..], p, q);
    }
  }

  /** Counts are additive over concatenation. */
  lemma {:induction false} CountAppend<T(!new)>(s: seq<T>, t: seq<T>, p: T -> bool)
    ensures Count(s + t, p) == Count(s, p) + Count(t, p)
  {
    if |s| == 0 {
      assert s + t == t;
    } else {
      assert (s + t)[1..] == s[1..] + t;
      CountAppend(s[1..], t, p);
    }
  }

  /** The sum of `f` over the elements of `s`. */
  function Sum<T>(s: seq<T>, f: T -> int): int {
    if |s| == 0 then 0 else f(s[0]) + Sum(s[1..], f)
  }

  lemma {:induction false} SumNonNegative<T>(s: seq<T>, f: T -> int)
    requires forall i :: 0 <= i < |s| ==> f(s[i]) >= 0
    ensures Sum(s, f) >= 0
  {
    if |s| > 0 {
      SumNonNegative(s[1..], f);
    }
  }

  lemma {:induction false} SumAppend<T>(s: seq<T>, t: seq<T>, f: T -> int)
    ensures Sum(s + t, f) == Sum(s, f) + Sum(t, f)
  {
    if |s| > 0 {
      assert (s + t)[1..] == s[1..] + t;
      SumAppend(s[1..], t, f);
    } else {
      assert s + t == t;
    }
  }

  /** Taking one element out of a sum. */
  lemma SumRemove<T>(s: seq<T>, k: nat, f: T -> int)
    requires k < |s|
    ensures Sum(s, f) == f(s[k]) + Sum(s[..k] + s[k + 1..], f)
  {
    var pre, post := s[..k], s[k + 1..];
    var tail := [s[k]] + post;
    assert s == pre + tail;
    SumAppend(pre, tail, f);
    assert tail[0] == s[k] && tail[1..] == post;
    SumAppend(pre, post, f);
  }

  /** A sequence is one of its elements together with the rest. */
  lemma MultisetSplit<T>(s: seq<T>, k: nat)
    requires k < |s|
    ensures multiset(s) == multiset(s[..k] + s[k + 1..]) + multiset{s[k]}
  {
    assert s == s[..k] + [s[k]] + s[k + 1..];
  }

  /** Removing the first element of `a` and an equal one of `b` keeps two
      permutations permutations of each other. */
  lemma RemoveMatching<T>(a: seq<T>, b: seq<T>, k: nat)
    requires multiset(a) == multiset(b) && |a| > 0 && k < |b| && b[k] == a[0]
    ensures multiset(a[1..]) == multiset(b[..k] + b[k + 1..])
  {
    var ra, rb := a[1..], b[..k] + b[k + 1..];
    assert a == [a[0]] + ra;
    assert multiset(a) == multiset(ra) + multiset{a[0]};
    MultisetSplit(b, k);
    var x := a[0];
    forall y
      ensures multiset(ra)[y] == multiset(rb)[y]
    {
      assert (multiset(ra) + multiset{x})[y] == (multiset(rb) + multiset{x})[y];
    }
    assert multiset(ra) == multiset(rb);
  }

  /** A position of an element of the multiset of `s`. */
  lemma IndexIn<T>(s: seq<T>, x: T) returns (k: nat)
    requires x in multiset(s)
    ensures k < |s| && s[k] == x
  {
    k :| k < |s| && s[k] == x;
  }

  /** A sum does not depend on the order of the elements. */
  lemma {:induction false} SumPermutation<T>(a: seq<T>, b: seq<T>, f: T -> int)
    requires multiset(a) == multiset(b)
    ensures Sum(a, f) == Sum(b, f)
    decreases |a|
  {
    if |a| == 0 {
      assert |b| == |multiset(b)| == 0;
    } else {
      var k := IndexIn(b, a[0]);
      var rest := b[..k] + b[k + 1..];
      RemoveMatching(a, b, k);
      SumPermutation(a[1..], rest, f);
      SumRemove(b, k, f);
    }
  }

  /** `take: n`: at most the first `n` elements. */
  function Take<T>(s: seq<T>, n: nat): (r: seq<T>)
    ensures |r| == Min(n, |s|) && r == s[..|r|]
  {
    if n < |s| then s[..n] else s
  }

  predicate SortedBy<T>(s: seq<T>, key: T -> int) {
    forall i, j :: 0 <= i < j < |s| ==> key(s[i]) <= key(s[j])
  }

  /** `x` put into the sorted `s` before the first element whose key is not
      smaller, so elements with equal keys keep their order. */
  function Insert<T>(x: T, s: seq<T>, key: T -> int): (r: seq<T>)
    requires SortedBy(s, key)
    ensures |r| == |s| + 1
    ensures multiset(r) == multiset(s) + multiset{x}
    ensures SortedBy(r, key)
  {
    if |s| == 0 then [x]
    else if key(x) <= key(s[0]) then [x] + s
    else
      SortedTail(s, key);
      var rest := Insert(x, s[1..], key);
      assert forall y :: y in rest ==> key(s[0]) <= key(y) by {
        forall y | y in rest
          ensures key(s[0]) <= key(y)
        {
          assert y in multiset(rest);
        }
      }
      PrependSorted(s[0], rest, key);
      assert s == [s[0]] + s[1..];
      [s[0]] + rest
  }

  /** The tail of a sorted sequence is sorted and no element of it is below the head. */
  lemma SortedTail<T>(s: seq<T>, key: T -> int)
    requires |s| > 0 && SortedBy(s, key)
    ensures SortedBy(s[1..], key)
    ensures forall y :: y in s[1..] ==> key(s[0]) <= key(y)
  {
    assert forall i :: 0 <= i < |s| - 1 ==> s[1..][i] == s[i + 1];
  }

  /** An element no greater than any element of a sorted sequence can go in front. */
  lemma PrependSorted<T>(x: T, s: seq<T>, key: T -> int)
    requires SortedBy(s, key)
    requires forall y :: y in s ==> key(x) <= key(y)
    ensures SortedBy([x] + s, key)
  {
    var r := [x] + s;
    forall i, j | 0 <= i < j < |r|
      ensures key(r[i]) <= key(r[j])
    {
      assert r[j] == s[j - 1];
      if i > 0 {
        assert r[i] == s[i - 1];
      } else {
        assert s[j - 1] in s;
      }
    }
  }

  /** Ascending order by an integer key; the result is a permutation of `s`. */
  function SortBy<T>(s: seq<T>, key: T -> int): (r: seq<T>)
    ensures |r| == |s|
    ensures multiset(r) == multiset(s)
    ensures SortedBy(r, key)
  {
    if |s| == 0 then []
    else
      assert s == [s[0]] + s[1..];
      Insert(s[0], SortBy(s[1..], key), key)
  }

  /** Sorting a sequence that is already in order changes nothing. */
  lemma {:induction false} SortBySorted<T>(s: seq<T>, key: T -> int)
    requires SortedBy(s, key)
    ensures SortBy(s, key) == s
  {
    if |s| > 0 {
      assert SortedBy(s[1..], key) by {
        assert forall i :: 0 <= i < |s| - 1 ==> s[1..][i] == s[i + 1];
      }
      SortBySorted(s[1..], key);
      assert s == [s[0]] + s[1..];
    }
  }

  predicate SortedByDesc<T>(s: seq<T>, key: T -> int) {
    forall i, j :: 0 <= i < j < |s| ==> key(s[i]) >= key(s[j])
  }

  function Negated<T>(key: T -> int): T -> int {
    x => -key(x)
  }

  /** Descending order by an integer key; the result is a permutation of `s`. */
  function SortByDesc<T>(s: seq<T>, key: T -> int): (r: seq<T>)
    ensures |r| == |s|
    ensures multiset(r) == multiset(s)
    ensures SortedByDesc(r, key)
  {
    var r := SortBy(s, Negated(key));
    assert forall i, j :: 0 <= i < j < |r| ==> Negated(key)(r[i]) <= Negated(key)(r[j]);
    r
  }

  /** A sorted sequence's elements are the input's, so a prefix of it holds
      only elements of the input. */
  lemma TakeOfPermutation<T>(s: seq<T>, r: seq<T>, n: nat)
    requires multiset(r) == multiset(s)
    ensures forall x :: x in Take(r, n) ==> x in s
  {
    forall x | x in Take(r, n)
      ensures x in s
    {
      assert x in r;
      assert x in multiset(r);
    }
  }

  /** `orderBy: { key: 'desc' }, take: n`: the first `n` elements in descending
      key order. They are taken from `s` (a sub-multiset), and every element
      left out has a key no greater than any element taken. */
  function TopBy<T(!new)>(s: seq<T>, key: T -> int, n: nat): (top: seq<T>)
    ensures |top| == Min(n, |s|)
    ensures SortedByDesc(top, key)
    ensures multiset(top) <= multiset(s)
    ensures forall x, i :: 0 <= i < |top| && multiset(top)[x] < multiset(s)[x] ==> key(x) <= key(top[i])
  {
    var sorted := SortByDesc(s, key);
    var top := Take(sorted, n);
    TopByLeftOut(sorted, key, |top|);
    top
  }

  /** Splitting a descending sequence: the head is a sub-multiset, and what
      is not in the head is not above any element of it. */
  lemma TopByLeftOut<T>(sorted: seq<T>, key: T -> int, m: nat)
    requires m <= |sorted| && SortedByDesc(sorted, key)
    ensures multiset(sorted[..m]) <= multiset(sorted)
    ensures forall x, i :: 0 <= i < m && multiset(sorted[..m])[x] < multiset(sorted)[x] ==>
              key(x) <= key(sorted[..m][i])
  {
    var top, rest := sorted[..m], sorted[m..];
    assert sorted == top + rest;
    assert multiset(sorted) == multiset(top) + multiset(rest);
    forall x, i | 0 <= i < m && multiset(top)[x] < multiset(sorted)[x]
      ensures key(x) <= key(top[i])
    {
      assert x in multiset(rest);
      var j :| 0 <= j < |rest| && rest[j] == x;
      assert sorted[m + j] == x && top[i] == sorted[i];
    }
  }
}

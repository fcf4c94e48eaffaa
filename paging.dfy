/** Query-string defaults, result windows (`skip`/`take`) and page metadata. */
module Paging {
  import opened Common

  /** `parseInt(param) || fallback`: a missing or non-numeric parameter (None) and
      a parameter that parses to 0 both give the fallback. */
  function OrDefault(param: Option<int>, fallback: int): (v: int)
    ensures param.None? ==> v == fallback
    ensures param == Some(0) ==> v == fallback
    ensures param.Some? && param.value != 0 ==> v == param.value
  {
    if param.None? || param.value == 0 then fallback else param.value
  }

  /** `skip: skip, take: take`: at most `take` consecutive elements starting at
      position `skip`. */
  function Window<T>(s: seq<T>, skip: nat, take: nat): (w: seq<T>)
    ensures |w| <= take
    ensures |w| == if skip >= |s| then 0 else Min(take, |s| - skip)
    ensures forall i :: 0 <= i < |w| ==> skip + i < |s| && w[i] == s[skip + i]
  {
    if skip >= |s| then [] else s[skip..Min(skip + take, |s|)]
  }

  /** Every element of a window is an element of the windowed sequence. */
  lemma WindowElements<T>(s: seq<T>, skip: nat, take: nat)
    ensures forall x :: x in Window(s, skip, take) ==> x in s
  {
    var w := Window(s, skip, take);
    forall x | x in w
      ensures x in s
    {
      var i :| 0 <= i < |w| && w[i] == x;
      assert s[skip + i] == x;
    }
  }

  /** A window of a reordering of `matching` holds elements of `matching` only. */
  lemma WindowOfPermutation<T>(matching: seq<T>, ordered: seq<T>, skip: nat, take: nat)
    requires multiset(ordered) == multiset(matching)
    ensures forall x :: x in Window(ordered, skip, take) ==> x in matching
  {
    WindowElements(ordered, skip, take);
    forall x | x in Window(ordered, skip, take)
      ensures x in matching
    {
      assert x in multiset(ordered);
    }
  }

  /** `Math.ceil(n / d)` for a positive divisor. */
  function CeilDiv(n: nat, d: nat): (q: nat)
    requires d > 0
    ensures q * d >= n
    ensures q > 0 ==> (q - 1) * d < n
    ensures q == 0 <==> n == 0
  {
    (n + d - 1) / d
  }

  /** The ceiling is the least page count that holds every row. */
  lemma {:induction false} CeilDivIsLeast(n: nat, d: nat, k: nat)
    requires d > 0 && k * d >= n
    ensures CeilDiv(n, d) <= k
  {
    var q := CeilDiv(n, d);
    if q > k {
      assert (q - 1) * d >= k * d by {
        assert q - 1 >= k;
        MulMonotone(k, q - 1, d);
      }
      assert false;
    }
  }

  lemma MulMonotone(a: nat, b: nat, d: nat)
    requires a <= b
    ensures a * d <= b * d
  {
  }

  /** The pagination block of a paged list answer. */
  datatype Pagination = Pagination(page: int, limit: int, total: nat, totalPages: nat,
                                   hasNext: bool, hasPrev: bool)

  function PageInfo(page: int, limit: int, total: nat): (p: Pagination)
    requires limit > 0
    ensures p.page == page && p.limit == limit && p.total == total
    ensures p.totalPages * limit >= total && (p.totalPages > 0 ==> (p.totalPages - 1) * limit < total)
    ensures p.hasNext <==> page < p.totalPages
    ensures p.hasPrev <==> page > 1
  {
    var pages := CeilDiv(total, limit);
    Pagination(page, limit, total, pages, page < pages, page > 1)
  }

  /** On a page no later than the last one, there is a next page exactly when
      some matching row lies beyond this page's window. */
  lemma {:induction false} HasNextMeansMoreRows(page: int, limit: int, total: nat)
    requires limit > 0 && page >= 1
    ensures PageInfo(page, limit, total).hasNext <==> page * limit < total
  {
    var q := CeilDiv(total, limit);
    if page < q {
      MulMonotone(page, q - 1, limit);
    } else {
      MulMonotone(q, page, limit);
    }
  }
}

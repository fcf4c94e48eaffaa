/** `GET /api/packages/search`: a case-insensitive text filter on title and
    description, optional price bounds, a window of the id-ordered matches and
    per-status counts of each match's linked requests. */
module PackagesSearch {
  import opened Common
  import opened Text
  import opened Seqs
  import opened Paging
  import opened Storage

  /** The query string, already parsed. `text` is `q`. A price bound is Some
      when its parameter is present and non-empty, so `"0"` is a bound; `limit`
      and `offset` are None when missing or non-numeric. */
  datatype SearchQuery = SearchQuery(text: Option<string>, minPrice: Option<int>, maxPrice: Option<int>,
                                     limit: Option<int>, offset: Option<int>)

  /** `searchParams.get('q') || ''`. */
  function QueryOf(q: SearchQuery): string { if Present(q.text) then q.text.value else "" }

  /** The part of the query that builds the `where` clause. */
  datatype Filters = Filters(query: string, minPrice: Option<int>, maxPrice: Option<int>)

  function FiltersOf(q: SearchQuery): Filters { Filters(QueryOf(q), q.minPrice, q.maxPrice) }

  /** The `OR` of the two `contains ... insensitive` conditions, present only
      for a non-empty query. */
  predicate TextMatches(f: Filters, p: Package) {
    f.query != "" ==> ContainsIgnoreCase(p.title, f.query) || ContainsIgnoreCase(p.description, f.query)
  }

  /** `gte` and `lte` on the price, each only when its bound was supplied. */
  predicate WithinBounds(f: Filters, p: Package) {
    && (f.minPrice.Some? ==> p.price >= f.minPrice.value)
    && (f.maxPrice.Some? ==> p.price <= f.maxPrice.value)
  }

  predicate Where(f: Filters, p: Package) {
    TextMatches(f, p) && WithinBounds(f, p)
  }

  function WherePred(f: Filters): Package -> bool {
    (p: Package) => Where(f, p)
  }

  /** `parseInt(limit) || 10` and `parseInt(offset) || 0`. */
  function LimitOf(q: SearchQuery): int { OrDefault(q.limit, 10) }
  function OffsetOf(q: SearchQuery): int { OrDefault(q.offset, 0) }

  /** The ORM runs the query only with a positive `take` and a non-negative
      `skip`. */
  predicate Runnable(q: SearchQuery) { LimitOf(q) >= 1 && OffsetOf(q) >= 0 }

  /** A package of the answer with the counts of its linked requests. */
  datatype Hit = Hit(package: Package, requestCount: nat, pendingCount: nat, completedCount: nat)

  function HitOf(p: Package): (h: Hit)
    ensures h.package == p && h.requestCount == |p.requests|
    ensures h.pendingCount == Count(p.requests, StatusIs("pending"))
    ensures h.completedCount == Count(p.requests, StatusIs("completed"))
    ensures h.pendingCount + h.completedCount <= h.requestCount
  {
    CountDisjoint(p.requests, StatusIs("pending"), StatusIs("completed"));
    Hit(p, |p.requests|, Count(p.requests, StatusIs("pending")), Count(p.requests, StatusIs("completed")))
  }

  function Hits(ps: seq<Package>): (hs: seq<Hit>)
    ensures |hs| == |ps| && forall i :: 0 <= i < |hs| ==> hs[i] == HitOf(ps[i])
  {
    seq(|ps|, i requires 0 <= i < |ps| => HitOf(ps[i]))
  }

  datatype SearchPage = SearchPage(total: nat, limit: int, offset: int, hasMore: bool)
  datatype SearchBody =
    | Found(data: seq<Hit>, pagination: SearchPage, query: string,
            minPrice: Option<int>, maxPrice: Option<int>)
    | SearchFailed(error: string)

  const SearchFailedMessage: string := "Failed to search packages"

  function Search(rows: seq<Package>, q: SearchQuery): (resp: Response<SearchBody>)
    ensures resp.status == 200 <==> Runnable(q)
    ensures !Runnable(q) ==> resp == Response(500, SearchFailed(SearchFailedMessage))
    ensures Runnable(q) ==>
      var b := resp.body;
      && b.Found?
      && |b.data| <= LimitOf(q)
      && (forall h :: h in b.data ==> h.package in rows && Where(FiltersOf(q), h.package))
      && (forall i, j :: 0 <= i < j < |b.data| ==> b.data[i].package.id <= b.data[j].package.id)
      && b.data == Hits(Window(OrderById(Filter(rows, WherePred(FiltersOf(q)))), OffsetOf(q), LimitOf(q)))
      && b.pagination.total == Count(rows, WherePred(FiltersOf(q)))
      && (b.pagination.hasMore <==> OffsetOf(q) + LimitOf(q) < b.pagination.total)
      && b.query == QueryOf(q) && b.minPrice == q.minPrice && b.maxPrice == q.maxPrice
  {
    if !Runnable(q) then Response(500, SearchFailed(SearchFailedMessage))
    else
      var matching := Filter(rows, WherePred(FiltersOf(q)));
      var ordered := OrderById(matching);
      var window := Window(ordered, OffsetOf(q), LimitOf(q));
      WindowOfOrdered(matching, ordered, OffsetOf(q), LimitOf(q));
      var total := Count(rows, WherePred(FiltersOf(q)));
      Response(200, Found(Hits(window), SearchPage(total, LimitOf(q), OffsetOf(q), OffsetOf(q) + LimitOf(q) < total),
                          QueryOf(q), q.minPrice, q.maxPrice))
  }

  /** A window of the id-ordered matches holds matches only, in id order. */
  lemma WindowOfOrdered(matching: seq<Package>, ordered: seq<Package>, skip: nat, take: nat)
    requires multiset(ordered) == multiset(matching) && SortedBy(ordered, PackageId)
    ensures forall p :: p in Window(ordered, skip, take) ==> p in matching
    ensures var w := Window(ordered, skip, take);
            forall i, j :: 0 <= i < j < |w| ==> w[i].id <= w[j].id
  {
    var w := Window(ordered, skip, take);
    WindowOfPermutation(matching, ordered, skip, take);
    forall i, j | 0 <= i < j < |w|
      ensures w[i].id <= w[j].id
    {
      assert w[i] == ordered[skip + i] && w[j] == ordered[skip + j];
      assert PackageId(ordered[skip + i]) <= PackageId(ordered[skip + j]);
    }
  }

  /** `total` counts every match, whatever the window: changing limit and
      offset does not change it. */
  lemma TotalIgnoresWindow(rows: seq<Package>, q: SearchQuery, limit: Option<int>, offset: Option<int>)
    requires Runnable(q) && Runnable(q.(limit := limit, offset := offset))
    ensures Search(rows, q).body.pagination.total
         == Search(rows, q.(limit := limit, offset := offset)).body.pagination.total
  {
    assert FiltersOf(q) == FiltersOf(q.(limit := limit, offset := offset));
  }

  /** Without a query and bounds every package matches. */
  lemma NoFilterMatchesAll(rows: seq<Package>, q: SearchQuery)
    requires !Present(q.text) && q.minPrice.None? && q.maxPrice.None?
    ensures Filter(rows, WherePred(FiltersOf(q))) == rows
  {
    FilterAll(rows, WherePred(FiltersOf(q)));
  }

  /** A minimum price of "0" is a bound, unlike in the add-on search: alone in
      the query it keeps exactly the packages whose price is not negative. */
  lemma ZeroMinimumIsABound(p: Package)
    ensures Where(FiltersOf(SearchQuery(None, Some(0), None, None, None)), p) <==> p.price >= 0
  {
  }
}

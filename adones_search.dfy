/** `GET /api/adones/search`: a conjunction of optional conditions, an ordered
    offset/limit window, title suggestions and the table's price range. */
module AdOnesSearch {
  import opened Common
  import opened Text
  import opened Seqs
  import opened Paging
  import opened Storage

  /** The query string, already parsed: None is a missing or non-numeric value. */
  datatype SearchQuery = SearchQuery(text: Option<string>, minPrice: Option<int>, maxPrice: Option<int>,
                                     sortBy: SortKey, sortOrder: SortOrder,
                                     limit: Option<int>, offset: Option<int>,
                                     category: Option<string>, hasRequests: Option<string>)

  /** One entry of the handler's `whereConditions` list. */
  datatype Condition =
    | TextCondition(text: string)
    | PriceCondition(min: int, max: Option<int>)
    | CategoryCondition(category: string)
    | SomeRequest
    | NoRequest

  function MinPriceOf(q: SearchQuery): int { OrDefault(q.minPrice, 0) }

  /** `parseFloat(maxPrice) || Infinity`: None is no upper bound (also for 0). */
  function MaxPriceOf(q: SearchQuery): (b: Option<int>)
    ensures b.Some? <==> q.maxPrice.Some? && q.maxPrice.value != 0
    ensures b.Some? ==> b == q.maxPrice
  {
    if q.maxPrice.Some? && q.maxPrice.value != 0 then q.maxPrice else None
  }

  /** `minPrice > 0 || maxPrice < Infinity`. */
  predicate PriceFilterActive(q: SearchQuery) {
    MinPriceOf(q) > 0 || MaxPriceOf(q).Some?
  }

  /** The conditions pushed, in the handler's order. */
  function Conditions(q: SearchQuery): seq<Condition> {
    (if Present(q.text) then [TextCondition(q.text.value)] else [])
    + (if PriceFilterActive(q) then [PriceCondition(MinPriceOf(q), MaxPriceOf(q))] else [])
    + (if Present(q.category) then [CategoryCondition(q.category.value)] else [])
    + (if q.hasRequests.None? then []
       else if q.hasRequests.value == "true" then [SomeRequest]
       else [NoRequest])
  }

  predicate Holds(r: AdOne, c: Condition) {
    match c
    case TextCondition(t) =>
      Contains(r.title, t) || Contains(r.description, t) || Contains(r.information, t)
    case PriceCondition(min, max) => min <= r.price && (max.None? || r.price <= max.value)
    case CategoryCondition(cat) => Contains(r.title, cat) || Contains(r.description, cat)
    case SomeRequest => r.requestCount >= 1
    case NoRequest => r.requestCount == 0
  }

  /** `{ AND: whereConditions }`, or no condition at all when the list is empty. */
  predicate SatisfiesAll(r: AdOne, cs: seq<Condition>) {
    forall i :: 0 <= i < |cs| ==> Holds(r, cs[i])
  }

  /** The text and the category conditions, with the price and request
      conditions, each apply only when its parameter is given. */
  predicate TextOk(q: SearchQuery, r: AdOne) {
    Present(q.text) ==> Holds(r, TextCondition(q.text.value))
  }
  predicate PriceOk(q: SearchQuery, r: AdOne) {
    PriceFilterActive(q) ==> MinPriceOf(q) <= r.price && (MaxPriceOf(q).None? || r.price <= MaxPriceOf(q).value)
  }
  predicate CategoryOk(q: SearchQuery, r: AdOne) {
    Present(q.category) ==> Holds(r, CategoryCondition(q.category.value))
  }
  /** Absent: no filter; `"true"`: at least one linked request; anything else: none. */
  predicate RequestsOk(q: SearchQuery, r: AdOne) {
    match q.hasRequests
    case None => true
    case Some(v) => if v == "true" then r.requestCount >= 1 else r.requestCount == 0
  }

  /** A row meets the list of conditions exactly when it meets every active one:
      the conditions are combined with AND. */
  lemma ConditionsAreConjunction(q: SearchQuery, r: AdOne)
    ensures SatisfiesAll(r, Conditions(q)) <==>
            TextOk(q, r) && PriceOk(q, r) && CategoryOk(q, r) && RequestsOk(q, r)
  {
    var a := if Present(q.text) then [TextCondition(q.text.value)] else [];
    var b := if PriceFilterActive(q) then [PriceCondition(MinPriceOf(q), MaxPriceOf(q))] else [];
    var c := if Present(q.category) then [CategoryCondition(q.category.value)] else [];
    var d := if q.hasRequests.None? then []
             else if q.hasRequests.value == "true" then [SomeRequest] else [NoRequest];
    assert Conditions(q) == a + b + c + d;
    SatisfiesAllAppend(r, a, b);
    SatisfiesAllAppend(r, a + b, c);
    SatisfiesAllAppend(r, a + b + c, d);
    if Present(q.text) { SatisfiesSingle(r, a[0]); }
    if PriceFilterActive(q) { SatisfiesSingle(r, b[0]); }
    if Present(q.category) { SatisfiesSingle(r, c[0]); }
    if q.hasRequests.Some? { SatisfiesSingle(r, d[0]); }
    assert SatisfiesAll(r, d) <==> RequestsOk(q, r);
  }

  /** With `minPrice <= 0` and no upper bound there is no price condition: a
      row's price does not affect whether it matches. */
  lemma PriceIgnoredWhenInactive(q: SearchQuery, r: AdOne, price: int)
    requires !PriceFilterActive(q)
    ensures SatisfiesAll(r, Conditions(q)) <==> SatisfiesAll(r.(price := price), Conditions(q))
  {
    ConditionsAreConjunction(q, r);
    ConditionsAreConjunction(q, r.(price := price));
  }

  /** Every match obeys the `hasRequests` parameter. */
  lemma HasRequestsSelects(rows: seq<AdOne>, q: SearchQuery)
    ensures q.hasRequests == Some("true") ==>
              forall r :: r in Matching(rows, q) ==> r.requestCount >= 1
    ensures q.hasRequests.Some? && q.hasRequests.value != "true" ==>
              forall r :: r in Matching(rows, q) ==> r.requestCount == 0
  {
    forall r | r in Matching(rows, q)
      ensures RequestsOk(q, r)
    {
      ConditionsAreConjunction(q, r);
    }
  }

  lemma SatisfiesSingle(r: AdOne, c: Condition)
    ensures SatisfiesAll(r, [c]) <==> Holds(r, c)
  {
    assert [c][0] == c;
  }

  lemma SatisfiesAllAppend(r: AdOne, xs: seq<Condition>, ys: seq<Condition>)
    ensures SatisfiesAll(r, xs + ys) <==> SatisfiesAll(r, xs) && SatisfiesAll(r, ys)
  {
    if SatisfiesAll(r, xs) && SatisfiesAll(r, ys) {
      forall i | 0 <= i < |xs + ys|
        ensures Holds(r, (xs + ys)[i])
      {
        if i >= |xs| {
          assert (xs + ys)[i] == ys[i - |xs|];
        }
      }
    }
    if SatisfiesAll(r, xs + ys) {
      forall i | 0 <= i < |xs|
        ensures Holds(r, xs[i])
      {
        assert (xs + ys)[i] == xs[i];
      }
      forall i | 0 <= i < |ys|
        ensures Holds(r, ys[i])
      {
        assert (xs + ys)[|xs| + i] == ys[i];
      }
    }
  }

  function SearchPred(q: SearchQuery): AdOne -> bool {
    (r: AdOne) => SatisfiesAll(r, Conditions(q))
  }

  function Matching(rows: seq<AdOne>, q: SearchQuery): (m: seq<AdOne>)
    ensures forall r :: r in m <==> r in rows && SatisfiesAll(r, Conditions(q))
  {
    Filter(rows, SearchPred(q))
  }

  function LimitOf(q: SearchQuery): int { OrDefault(q.limit, 20) }
  function OffsetOf(q: SearchQuery): int { OrDefault(q.offset, 0) }

  /** A non-negative skip and a positive take. */
  predicate Runnable(q: SearchQuery) {
    LimitOf(q) >= 1 && OffsetOf(q) >= 0
  }

  datatype SearchPage = SearchPage(total: nat, limit: int, offset: int, hasMore: bool)
  datatype PriceRange = PriceRange(min: int, max: int)
  datatype SearchBody =
    | Found(results: seq<AdOne>, pagination: SearchPage, priceRange: PriceRange,
            suggestions: seq<string>)
    | SearchFailed(message: string)

  const SearchFailedMessage: string := "Failed to search add-ons"

  // ------------------------------------------------------- suggestions

  function Titles(rows: seq<AdOne>): (ts: seq<string>)
    ensures |ts| == |rows| && forall i :: 0 <= i < |rows| ==> ts[i] == rows[i].title
  {
    seq(|rows|, i requires 0 <= i < |rows| => rows[i].title)
  }

  predicate NoDuplicates(s: seq<string>) {
    forall i, j :: 0 <= i < j < |s| ==> s[i] != s[j]
  }

  /** `distinct`: each value once, at its first occurrence. */
  function Distinct(s: seq<string>): (r: seq<string>)
    ensures NoDuplicates(r)
    ensures forall x :: x in r <==> x in s
    ensures |r| <= |s|
  {
    if |s| == 0 then []
    else
      var init := Distinct(s[..|s| - 1]);
      assert forall x :: x in s <==> x in s[..|s| - 1] || x == s[|s| - 1] by {
        assert s == s[..|s| - 1] + [s[|s| - 1]];
      }
      if s[|s| - 1] in init then init else init + [s[|s| - 1]]
  }

  /** Up to ten distinct existing titles; fewer than ten only when the table
      has no other title. */
  function Suggestions(rows: seq<AdOne>): (s: seq<string>)
    ensures |s| == Min(10, |Distinct(Titles(rows))|) && NoDuplicates(s)
    ensures forall t :: t in s ==> exists i :: 0 <= i < |rows| && rows[i].title == t
    ensures |s| < 10 ==> forall i :: 0 <= i < |rows| ==> rows[i].title in s
  {
    var d := Distinct(Titles(rows));
    var s := Take(d, 10);
    assert forall t :: t in s ==> t in d;
    assert |s| < 10 ==> s == d;
    assert forall i :: 0 <= i < |rows| ==> Titles(rows)[i] in Titles(rows);
    s
  }

  // ------------------------------------------------------- price range

  /** `_min.ad_price || 0` and `_max.ad_price || 0`: (0, 0) for an empty table. */
  function PriceRangeOf(rows: seq<AdOne>): (p: PriceRange)
    ensures |rows| == 0 ==> p == PriceRange(0, 0)
    ensures |rows| > 0 ==> p.min <= p.max
    ensures |rows| > 0 ==> p.min == MinPrice(rows) && p.max == MaxPrice(rows)
  {
    if |rows| == 0 then PriceRange(0, 0)
    else PriceRange(MinPrice(rows), MaxPrice(rows))
  }

  // ------------------------------------------------------- the handler

  function Search(rows: seq<AdOne>, q: SearchQuery): (resp: Response<SearchBody>)
    ensures resp.status == 200 <==> Runnable(q)
    ensures !Runnable(q) ==> resp == Response(500, SearchFailed(SearchFailedMessage))
    ensures Runnable(q) ==>
      var b := resp.body;
      && b.Found?
      && |b.results| <= LimitOf(q)
      && (forall r :: r in b.results ==> r in rows && SatisfiesAll(r, Conditions(q)))
      && b.results == Window(OrderAdOnes(Matching(rows, q), q.sortBy, q.sortOrder),
                             OffsetOf(q), LimitOf(q))
      && b.pagination.total == Count(rows, SearchPred(q))
      && (b.pagination.hasMore <==> OffsetOf(q) + LimitOf(q) < b.pagination.total)
      && b.suggestions == Suggestions(rows)
      && b.priceRange == PriceRangeOf(rows)
  {
    if !Runnable(q) then Response(500, SearchFailed(SearchFailedMessage))
    else
      var limit, offset := LimitOf(q), OffsetOf(q);
      var matching := Matching(rows, q);
      var ordered := OrderAdOnes(matching, q.sortBy, q.sortOrder);
      var results := Window(ordered, offset, limit);
      WindowOfPermutation(matching, ordered, offset, limit);
      var total := |matching|;
      Response(200, Found(results, SearchPage(total, limit, offset, offset + limit < total),
                          PriceRangeOf(rows), Suggestions(rows)))
  }

  /** `total` does not depend on the window: two queries that differ only in
      offset and limit count the same rows. */
  lemma TotalIgnoresWindow(rows: seq<AdOne>, q: SearchQuery, limit: Option<int>, offset: Option<int>)
    requires Runnable(q) && Runnable(q.(limit := limit, offset := offset))
    ensures Search(rows, q).body.pagination.total
         == Search(rows, q.(limit := limit, offset := offset)).body.pagination.total
  {
    var q2 := q.(limit := limit, offset := offset);
    assert Conditions(q) == Conditions(q2);
    assert SearchPred(q) == SearchPred(q2);
    assert Search(rows, q).body.pagination.total == Count(rows, SearchPred(q));
  }
}

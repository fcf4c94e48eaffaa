/** `GET /api/adones` (filtered, ordered, paged list) and `POST /api/adones`
    (validated insert of one add-on). */
module AdOnesRoute {
  import opened Common
  import opened Text
  import opened Seqs
  import opened Paging
  import opened Storage

  // ---------------------------------------------------------------- GET

  /** The query string, already parsed: None is a missing or non-numeric value. */
  datatype ListQuery = ListQuery(page: Option<int>, limit: Option<int>, search: Option<string>,
                                 sortBy: SortKey, sortOrder: SortOrder,
                                 minPrice: Option<int>, maxPrice: Option<int>)

  datatype ListBody = Listed(data: seq<AdOne>, pagination: Pagination)
                    | ListFailed(message: string)

  const FetchFailed: string := "Failed to fetch add-ons"

  /** `parseFloat(maxPrice) || Infinity`: None stands for no upper bound, and a
      maximum of 0 also means no upper bound. */
  function UpperBound(maxPrice: Option<int>): (b: Option<int>)
    ensures b.Some? <==> maxPrice.Some? && maxPrice.value != 0
    ensures b.Some? ==> b == maxPrice
  {
    if maxPrice.Some? && maxPrice.value != 0 then maxPrice else None
  }

  /** The text condition: `search` occurs in the title, description or
      information (case-sensitive). */
  predicate MatchesText(r: AdOne, search: string) {
    Contains(r.title, search) || Contains(r.description, search) || Contains(r.information, search)
  }

  predicate WithinPrice(r: AdOne, min: int, max: Option<int>) {
    min <= r.price && (max.None? || r.price <= max.value)
  }

  /** The `where` clause of the list handler. */
  predicate ListFilter(q: ListQuery, r: AdOne) {
    && MatchesText(r, q.search.GetOr(""))
    && WithinPrice(r, OrDefault(q.minPrice, 0), UpperBound(q.maxPrice))
  }

  function ListPred(q: ListQuery): AdOne -> bool {
    (r: AdOne) => ListFilter(q, r)
  }

  /** The rows the `where` clause selects, in table order. */
  function Matching(rows: seq<AdOne>, q: ListQuery): (m: seq<AdOne>)
    ensures forall r :: r in m <==> r in rows && ListFilter(q, r)
  {
    Filter(rows, ListPred(q))
  }

  /** Page and limit after their defaults (1 and 10). */
  function PageOf(q: ListQuery): int { OrDefault(q.page, 1) }
  function LimitOf(q: ListQuery): int { OrDefault(q.limit, 10) }

  /** The query the ORM can run: a non-negative skip, a positive take, and an
      existing column to order by (`usage` is not a column of the add-on table). */
  predicate Runnable(q: ListQuery) {
    PageOf(q) >= 1 && LimitOf(q) >= 1 && q.sortBy != ByUsage
  }

  /** `skip = (page - 1) * limit`. */
  function SkipOf(q: ListQuery): nat
    requires Runnable(q)
  {
    MulNat(PageOf(q) - 1, LimitOf(q))
  }

  function MulNat(a: nat, b: nat): nat { a * b }

  function Get(rows: seq<AdOne>, q: ListQuery): (resp: Response<ListBody>)
    ensures resp.status == 200 <==> Runnable(q)
    ensures !Runnable(q) ==> resp == Response(500, ListFailed(FetchFailed))
    ensures Runnable(q) ==>
      && resp.body.Listed?
      && |resp.body.data| <= LimitOf(q)
      && (forall r :: r in resp.body.data ==> r in rows && ListFilter(q, r))
      && resp.body.data == Window(OrderAdOnes(Matching(rows, q), q.sortBy, q.sortOrder),
                                  SkipOf(q), LimitOf(q))
      && resp.body.pagination == PageInfo(PageOf(q), LimitOf(q), Count(rows, ListPred(q)))
  {
    if !Runnable(q) then Response(500, ListFailed(FetchFailed))
    else
      var page, limit := PageOf(q), LimitOf(q);
      var skip := SkipOf(q);
      var matching := Matching(rows, q);
      var ordered := OrderAdOnes(matching, q.sortBy, q.sortOrder);
      var data := Window(ordered, skip, limit);
      WindowOfPermutation(matching, ordered, skip, limit);
      Response(200, Listed(data, PageInfo(page, limit, |matching|)))
  }

  /** Without a search text or price bounds every row of a table with
      non-negative prices matches, so `total` is the table size. */
  lemma NoFilterMatchesAll(rows: seq<AdOne>, q: ListQuery)
    requires q.search.None? && q.minPrice.None? && q.maxPrice.None?
    requires forall i :: 0 <= i < |rows| ==> rows[i].price >= 0
    ensures Matching(rows, q) == rows
  {
    forall i | 0 <= i < |rows|
      ensures ListFilter(q, rows[i])
    {
      ContainsEmpty(rows[i].title);
    }
    FilterAll(rows, ListPred(q));
  }

  // ---------------------------------------------------------------- POST

  /** The request body: a missing field is None. */
  datatype AdOneInput = AdOneInput(title: Option<string>, price: Option<int>,
                                   description: Option<string>, information: Option<string>)

  datatype CreateBody = Created(row: AdOne) | CreateFailed(message: string)

  const MissingFields: string := "Missing required fields: ad_title, ad_price, ad_description"
  const NegativePrice: string := "Price must be a positive number"
  const DuplicateTitle: string := "Add-on with this title already exists"

  /** `!ad_title || !ad_price || !ad_description`: a price of 0 counts as missing. */
  predicate MissingRequired(input: AdOneInput) {
    !Present(input.title) || input.price.None? || input.price.value == 0 || !Present(input.description)
  }

  /** Some row has exactly this title (case-sensitive `equals`). */
  predicate TitleTaken(rows: seq<AdOne>, title: string) {
    exists i :: 0 <= i < |rows| && rows[i].title == title
  }

  /** The answer of the validation ladder, if one of its checks fails; the first
      failing check decides. */
  function CreateError(rows: seq<AdOne>, input: AdOneInput): (e: Option<Response<CreateBody>>)
    ensures e.None? <==> !MissingRequired(input) && input.price.value > 0 && !TitleTaken(rows, input.title.value)
    ensures MissingRequired(input) ==> e == Some(Response(400, CreateFailed(MissingFields)))
    ensures e.Some? ==> (e.value.status == 409 <==> !MissingRequired(input) && input.price.value > 0
                                                     && TitleTaken(rows, input.title.value))
    ensures e.Some? && e.value.status != 409 ==> e.value.status == 400
  {
    if MissingRequired(input) then Some(Response(400, CreateFailed(MissingFields)))
    else if input.price.value < 0 then Some(Response(400, CreateFailed(NegativePrice)))
    else if TitleTaken(rows, input.title.value) then Some(Response(409, CreateFailed(DuplicateTitle)))
    else None
  }

  /** The row the insert creates; `ad_information` defaults to the empty string. */
  function NewAdOne(id: int, input: AdOneInput, now: int): (r: AdOne)
    requires !MissingRequired(input)
    ensures r.id == id && r.title == input.title.value && r.price == input.price.value
    ensures r.description == input.description.value
    ensures r.information == if Present(input.information) then input.information.value else ""
    ensures r.requestCount == 0 && r.createdAt == now && r.updatedAt == now
  {
    AdOne(id, input.title.value, input.price.value, input.description.value,
          if Present(input.information) then input.information.value else "", 0, now, now)
  }

  method Post(db: Store, input: AdOneInput, now: int) returns (resp: Response<CreateBody>)
    requires db.Valid()
    modifies db
    ensures db.Valid()
    ensures db.packages == old(db.packages) && db.users == old(db.users)
    ensures db.nextPackageId == old(db.nextPackageId) && db.nextUserId == old(db.nextUserId)
    ensures CreateError(old(db.adOnes), input).Some? ==>
      && resp == CreateError(old(db.adOnes), input).value
      && db.adOnes == old(db.adOnes) && db.nextAdId == old(db.nextAdId)
    ensures CreateError(old(db.adOnes), input).None? ==>
      && resp == Response(201, Created(NewAdOne(old(db.nextAdId), input, now)))
      && db.adOnes == old(db.adOnes) + [NewAdOne(old(db.nextAdId), input, now)]
      && db.nextAdId == old(db.nextAdId) + 1
  {
    if !Present(input.title) || input.price.None? || input.price.value == 0 || !Present(input.description) {
      return Response(400, CreateFailed(MissingFields));
    }
    if input.price.value < 0 {
      return Response(400, CreateFailed(NegativePrice));
    }
    if TitleTaken(db.adOnes, input.title.value) {
      return Response(409, CreateFailed(DuplicateTitle));
    }
    var row := NewAdOne(db.nextAdId, input, now);
    db.adOnes := db.adOnes + [row];
    db.nextAdId := db.nextAdId + 1;
    resp := Response(201, Created(row));
  }

  /** A price of 0 is rejected as missing, before any other check. */
  lemma ZeroPriceIsMissing(rows: seq<AdOne>, input: AdOneInput)
    requires input.price == Some(0)
    ensures CreateError(rows, input) == Some(Response(400, CreateFailed(MissingFields)))
  {
  }

  /** The duplicate check is case-sensitive: a title that differs from an
      existing one only in case passes it. */
  lemma CaseVariantTitleIsNoConflict()
    ensures CreateError([AdOne(1, "Logo", 10, "d", "", 0, 0, 0)],
                        AdOneInput(Some("logo"), Some(5), Some("d"), None)).None?
  {
    var rows := [AdOne(1, "Logo", 10, "d", "", 0, 0, 0)];
    assert rows[0].title != "logo" by {
      assert "Logo"[0] != "logo"[0];
    }
  }
}

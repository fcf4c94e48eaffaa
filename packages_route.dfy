/** `GET /api/packages` (every package in id order) and `POST /api/packages`
    (validated insert of one package). */
module PackagesRoute {
  import opened Common
  import opened Seqs
  import opened Storage

  // ---------------------------------------------------------------- GET

  datatype ListBody = ListBody(data: seq<Package>, count: nat)

  function Get(rows: seq<Package>): (resp: Response<ListBody>)
    ensures resp.status == 200
    ensures resp.body.count == |resp.body.data| == |rows|
    ensures multiset(resp.body.data) == multiset(rows)
    ensures SortedBy(resp.body.data, PackageId)
  {
    var data := OrderById(rows);
    Response(200, ListBody(data, |data|))
  }

  /** On a table kept by the store, the list is the table itself. */
  lemma GetReturnsTable(rows: seq<Package>, nextId: int)
    requires PackageTableOk(rows, nextId)
    ensures Get(rows).body.data == rows
  {
    OrderByIdOfValidTable(rows, nextId);
  }

  // ---------------------------------------------------------------- POST

  /** The request body: title and description are None when missing; the price
      is None when the key is absent (`undefined`) and otherwise the JSON value
      as sent, of whatever type. */
  datatype PackageInput = PackageInput(title: Option<string>, description: Option<string>,
                                       price: Option<Value>)

  datatype CreateBody = Created(row: Package) | CreateFailed(error: string)

  const MissingFields: string := "Missing required fields"
  const BadPrice: string := "Package price must be a positive number"

  /** `!package_title || !package_description || package_price === undefined`. */
  predicate MissingRequired(input: PackageInput) {
    !Present(input.title) || !Present(input.description) || input.price.None?
  }

  /** `typeof package_price !== 'number' || package_price < 0`. */
  predicate PriceRejected(input: PackageInput)
    requires input.price.Some?
  {
    !input.price.value.Num? || input.price.value.n < 0
  }

  /** The answer of the validation ladder, if one of its checks fails. It
      depends on the input alone: there is no duplicate-title check. */
  function CreateError(input: PackageInput): (e: Option<Response<CreateBody>>)
    ensures e.Some? <==> MissingRequired(input) || PriceRejected(input)
    ensures e.Some? ==> e.value.status == 400
    ensures MissingRequired(input) ==> e == Some(Response(400, CreateFailed(MissingFields)))
  {
    if MissingRequired(input) then Some(Response(400, CreateFailed(MissingFields)))
    else if PriceRejected(input) then Some(Response(400, CreateFailed(BadPrice)))
    else None
  }

  /** The row the insert creates; a new package has no linked requests. */
  function NewPackage(id: int, input: PackageInput): (p: Package)
    requires CreateError(input).None?
    ensures p.id == id && p.title == input.title.value && p.description == input.description.value
    ensures p.price == input.price.value.n && p.price >= 0 && p.requests == []
  {
    Package(id, input.title.value, input.description.value, input.price.value.n, [])
  }

  method Post(db: Store, input: PackageInput) returns (resp: Response<CreateBody>)
    requires db.Valid()
    modifies db
    ensures db.Valid()
    ensures db.adOnes == old(db.adOnes) && db.users == old(db.users)
    ensures db.nextAdId == old(db.nextAdId) && db.nextUserId == old(db.nextUserId)
    ensures CreateError(input).Some? ==>
      && resp == CreateError(input).value
      && db.packages == old(db.packages) && db.nextPackageId == old(db.nextPackageId)
    ensures CreateError(input).None? ==>
      && resp == Response(201, Created(NewPackage(old(db.nextPackageId), input)))
      && db.packages == old(db.packages) + [NewPackage(old(db.nextPackageId), input)]
      && db.nextPackageId == old(db.nextPackageId) + 1
  {
    if !Present(input.title) || !Present(input.description) || input.price.None? {
      return Response(400, CreateFailed(MissingFields));
    }
    if !input.price.value.Num? || input.price.value.n < 0 {
      return Response(400, CreateFailed(BadPrice));
    }
    var row := NewPackage(db.nextPackageId, input);
    db.packages := db.packages + [row];
    db.nextPackageId := db.nextPackageId + 1;
    resp := Response(201, Created(row));
  }

  /** A price of 0 is accepted, unlike for add-ons. */
  lemma ZeroPriceAccepted(input: PackageInput, id: int)
    requires Present(input.title) && Present(input.description) && input.price == Some(Num(0))
    ensures CreateError(input).None? && NewPackage(id, input).price == 0
  {
  }

  /** A price that is not a JSON number is refused, even a numeric string. */
  lemma StringPriceRejected(input: PackageInput)
    requires Present(input.title) && Present(input.description) && input.price == Some(Str("10"))
    ensures CreateError(input) == Some(Response(400, CreateFailed(BadPrice)))
  {
  }
}

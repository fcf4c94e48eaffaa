/** `POST /api/packages/bulk`: update or delete a list of packages. The
    operation name is checked before the ids; an update writes only the
    allow-listed columns, and a delete is refused as a whole when a target has
    linked requests. */
module PackagesBulk {
  import opened Common
  import opened Text
  import opened Seqs
  import opened Storage

  /** The request body: `operation` (None when missing or empty),
      `package_ids` (None when missing or not an array; an element is None
      when it does not parse as an integer) and `data` (None when missing,
      falsy or not an object). */
  datatype BulkRequest = BulkRequest(operation: Option<string>, ids: Option<seq<Option<int>>>,
                                     data: Option<map<string, Value>>)

  /** A row of the refusal of a delete. */
  datatype WithRequests = WithRequests(id: int, title: string, requestCount: nat)

  datatype BulkBody =
    | Updated(message: string, updatedCount: nat, packageIds: seq<int>)
    | Deleted(message: string, deletedCount: nat, packageIds: seq<int>)
    | HasRequests(error: string, packages: seq<WithRequests>)
    | BulkFailed(error: string)

  /** The answer and the package table after the request. */
  datatype Outcome = Outcome(resp: Response<BulkBody>, table: seq<Package>)

  const MissingFields: string := "Missing required fields: operation, package_ids"
  const InvalidOperation: string := "Invalid operation. Must be one of: update, delete"
  const NoValidIds: string := "No valid package IDs provided"
  const MissingData: string := "Update operation requires data object"
  const BadPrice: string := "Package price must be a positive number"
  const NoFields: string := "No valid fields to update"
  const DeleteRefused: string := "Cannot delete packages with associated requests"
  const OperationFailed: string := "Failed to perform bulk operation"

  // ------------------------------------------------------------ update data

  /** The columns an update may write, in the order the handler visits them. */
  const AllowedFields: seq<string> := ["package_title", "package_description", "package_price"]

  /** `typeof value !== 'number' || value < 0`. */
  predicate BadPriceValue(v: Value) {
    !v.Num? || v.n < 0
  }

  predicate PriceRejected(data: map<string, Value>) {
    "package_price" in data && BadPriceValue(data["package_price"])
  }

  /** `data` restricted to the allow-listed keys. */
  function Allowed(data: map<string, Value>): (u: map<string, Value>)
    ensures forall k :: k in u <==> k in data && k in AllowedFields
    ensures forall k :: k in u ==> u[k] == data[k]
  {
    map k | k in data && k in AllowedFields :: data[k]
  }

  datatype UpdateData = PriceRefused | Fields(update: map<string, Value>)

  /** The `for (const field of allowedFields)` loop that builds `updateData`. */
  method BuildUpdateData(data: map<string, Value>) returns (r: UpdateData)
    ensures r.PriceRefused? <==> PriceRejected(data)
    ensures r.Fields? ==> r.update == Allowed(data)
  {
    var update: map<string, Value> := map[];
    var i := 0;
    while i < |AllowedFields|
      invariant 0 <= i <= |AllowedFields|
      invariant update == map k | k in data && k in AllowedFields[..i] :: data[k]
      invariant i == |AllowedFields| ==> !PriceRejected(data)
    {
      var field := AllowedFields[i];
      if field in data {
        if field == "package_price" && BadPriceValue(data[field]) {
          return PriceRefused;
        }
        update := update[field := data[field]];
      }
      assert AllowedFields[..i + 1] == AllowedFields[..i] + [field];
      i := i + 1;
    }
    assert AllowedFields[..i] == AllowedFields;
    return Fields(update);
  }

  /** The ORM writes these values: a string title and description and a
      numeric price. */
  predicate UpdateAccepted(u: map<string, Value>) {
    && ("package_title" in u ==> u["package_title"].Str?)
    && ("package_description" in u ==> u["package_description"].Str?)
    && ("package_price" in u ==> u["package_price"].Num?)
  }

  function Apply(p: Package, u: map<string, Value>): Package
    requires UpdateAccepted(u)
  {
    Package(p.id,
            if "package_title" in u then u["package_title"].s else p.title,
            if "package_description" in u then u["package_description"].s else p.description,
            if "package_price" in u then u["package_price"].n else p.price,
            p.requests)
  }

  /** `updateMany` over the targets with `updateData`. */
  function ApplyRows(rows: seq<Package>, ids: seq<int>, u: map<string, Value>): (t: seq<Package>)
    requires UpdateAccepted(u)
    ensures |t| == |rows|
    ensures forall i :: 0 <= i < |t| ==> t[i] == if rows[i].id in ids then Apply(rows[i], u) else rows[i]
  {
    seq(|rows|, i requires 0 <= i < |rows| => if rows[i].id in ids then Apply(rows[i], u) else rows[i])
  }

  function Update(rows: seq<Package>, ids: seq<int>, data: Option<map<string, Value>>): Outcome {
    if data.None? then Outcome(Response(400, BulkFailed(MissingData)), rows)
    else if PriceRejected(data.value) then Outcome(Response(400, BulkFailed(BadPrice)), rows)
    else
      var u := Allowed(data.value);
      if |u| == 0 then Outcome(Response(400, BulkFailed(NoFields)), rows)
      else if !UpdateAccepted(u) then Outcome(Response(500, BulkFailed(OperationFailed)), rows)
      else
        var n := Count(rows, PackageTargeted(ids));
        Outcome(Response(200, Updated("Updated " + DecimalString(n) + " packages successfully", n, ids)),
                ApplyRows(rows, ids, u))
  }

  // ------------------------------------------------------------ delete

  function TargetWithRequests(ids: seq<int>): Package -> bool {
    (p: Package) => p.id in ids && |p.requests| > 0
  }

  function WithRequestsRows(ps: seq<Package>): (w: seq<WithRequests>)
    ensures |w| == |ps|
    ensures forall i :: 0 <= i < |w| ==> w[i] == WithRequests(ps[i].id, ps[i].title, |ps[i].requests|)
  {
    seq(|ps|, i requires 0 <= i < |ps| => WithRequests(ps[i].id, ps[i].title, |ps[i].requests|))
  }

  function Delete(rows: seq<Package>, ids: seq<int>): Outcome {
    var blocked := Filter(rows, TargetWithRequests(ids));
    if |blocked| > 0 then Outcome(Response(400, HasRequests(DeleteRefused, WithRequestsRows(blocked))), rows)
    else
      var n := Count(rows, PackageTargeted(ids));
      Outcome(Response(200, Deleted("Deleted " + DecimalString(n) + " packages successfully", n, ids)),
              Filter(rows, PackageNotTargeted(ids)))
  }

  // ------------------------------------------------------------ dispatch

  /** The whole handler on the package table as it was before the request. */
  function Bulk(rows: seq<Package>, req: BulkRequest): Outcome {
    if !Present(req.operation) || req.ids.None? then Outcome(Response(400, BulkFailed(MissingFields)), rows)
    else if req.operation.value != "update" && req.operation.value != "delete" then
      Outcome(Response(400, BulkFailed(InvalidOperation)), rows)
    else
      var ids := ParseIds(req.ids.value);
      if |ids| == 0 then Outcome(Response(400, BulkFailed(NoValidIds)), rows)
      else if req.operation.value == "update" then Update(rows, ids, req.data)
      else Delete(rows, ids)
  }

  method Post(db: Store, req: BulkRequest) returns (resp: Response<BulkBody>)
    requires db.Valid()
    modifies db
    ensures db.Valid()
    ensures db.adOnes == old(db.adOnes) && db.users == old(db.users)
    ensures db.nextAdId == old(db.nextAdId) && db.nextPackageId == old(db.nextPackageId)
    ensures db.nextUserId == old(db.nextUserId)
    ensures resp == Bulk(old(db.packages), req).resp
    ensures db.packages == Bulk(old(db.packages), req).table
  {
    if !Present(req.operation) || req.ids.None? {
      return Response(400, BulkFailed(MissingFields));
    }
    var op := req.operation.value;
    if op != "update" && op != "delete" {
      return Response(400, BulkFailed(InvalidOperation));
    }
    var ids := ParseIds(req.ids.value);
    if |ids| == 0 {
      return Response(400, BulkFailed(NoValidIds));
    }
    if op == "update" {
      resp := UpdateTargets(db, ids, req.data);
    } else {
      resp := DeleteTargets(db, ids);
    }
  }

  method UpdateTargets(db: Store, ids: seq<int>, data: Option<map<string, Value>>) returns (resp: Response<BulkBody>)
    requires db.Valid()
    modifies db
    ensures db.Valid()
    ensures db.adOnes == old(db.adOnes) && db.users == old(db.users)
    ensures db.nextAdId == old(db.nextAdId) && db.nextPackageId == old(db.nextPackageId)
    ensures db.nextUserId == old(db.nextUserId)
    ensures resp == Update(old(db.packages), ids, data).resp
    ensures db.packages == Update(old(db.packages), ids, data).table
  {
    if data.None? {
      return Response(400, BulkFailed(MissingData));
    }
    var built := BuildUpdateData(data.value);
    if built.PriceRefused? {
      return Response(400, BulkFailed(BadPrice));
    }
    var u := built.update;
    if |u| == 0 {
      return Response(400, BulkFailed(NoFields));
    }
    if !UpdateAccepted(u) {
      return Response(500, BulkFailed(OperationFailed));
    }
    var n := Count(db.packages, PackageTargeted(ids));
    ApplyKeepsTable(db.packages, db.nextPackageId, ids, data.value);
    db.packages := ApplyRows(db.packages, ids, u);
    resp := Response(200, Updated("Updated " + DecimalString(n) + " packages successfully", n, ids));
  }

  method DeleteTargets(db: Store, ids: seq<int>) returns (resp: Response<BulkBody>)
    requires db.Valid()
    modifies db
    ensures db.Valid()
    ensures db.adOnes == old(db.adOnes) && db.users == old(db.users)
    ensures db.nextAdId == old(db.nextAdId) && db.nextPackageId == old(db.nextPackageId)
    ensures db.nextUserId == old(db.nextUserId)
    ensures resp == Delete(old(db.packages), ids).resp
    ensures db.packages == Delete(old(db.packages), ids).table
  {
    var blocked := Filter(db.packages, TargetWithRequests(ids));
    if |blocked| > 0 {
      return Response(400, HasRequests(DeleteRefused, WithRequestsRows(blocked)));
    }
    var n := Count(db.packages, PackageTargeted(ids));
    FilterPackageTableOk(db.packages, db.nextPackageId, PackageNotTargeted(ids));
    db.packages := Filter(db.packages, PackageNotTargeted(ids));
    resp := Response(200, Deleted("Deleted " + DecimalString(n) + " packages successfully", n, ids));
  }

  /** An accepted update keeps the table invariant: ids are not written and a
      written price is not negative. */
  lemma ApplyKeepsTable(rows: seq<Package>, nextId: int, ids: seq<int>, data: map<string, Value>)
    requires PackageTableOk(rows, nextId)
    requires !PriceRejected(data) && UpdateAccepted(Allowed(data))
    ensures PackageTableOk(ApplyRows(rows, ids, Allowed(data)), nextId)
  {
  }
}

/** Properties of the package bulk handler, stated on `Bulk`, the function
    `Post` is proved to follow. */
module PackagesBulkLaws {
  import opened Common
  import opened Seqs
  import opened Storage
  import opened PackagesBulk

  /** Every refusal leaves the table as it was. */
  lemma RefusalLeavesTable(rows: seq<Package>, req: BulkRequest)
    ensures Bulk(rows, req).resp.status != 200 ==> Bulk(rows, req).table == rows
  {
  }

  /** The operation name is checked before the ids: an unknown operation is
      refused as such even when no id parses. */
  lemma OperationCheckedBeforeIds(rows: seq<Package>, req: BulkRequest)
    requires Present(req.operation) && req.ids.Some?
    requires req.operation.value != "update" && req.operation.value != "delete"
    ensures Bulk(rows, req) == Outcome(Response(400, BulkFailed(InvalidOperation)), rows)
  {
  }

  /** With a known operation and no id that parses, the answer is 400. */
  lemma NoValidIdsRejected(rows: seq<Package>, req: BulkRequest)
    requires Present(req.operation) && req.ids.Some?
    requires req.operation.value == "update" || req.operation.value == "delete"
    requires forall i :: 0 <= i < |req.ids.value| ==> req.ids.value[i].None?
    ensures Bulk(rows, req) == Outcome(Response(400, BulkFailed(NoValidIds)), rows)
  {
  }

  /** Keys outside the allow-list never influence an update. */
  lemma OtherKeysIgnored(rows: seq<Package>, ids: seq<int>, data: map<string, Value>, k: string, v: Value)
    requires k !in AllowedFields
    ensures Update(rows, ids, Some(data[k := v])) == Update(rows, ids, Some(data))
  {
    assert Allowed(data[k := v]) == Allowed(data);
  }

  /** An update is refused with 400 when the price is not a non-negative
      number, or when no allow-listed key is present. */
  lemma UpdateRefusals(rows: seq<Package>, ids: seq<int>, data: map<string, Value>)
    ensures PriceRejected(data) ==> Update(rows, ids, Some(data)) == Outcome(Response(400, BulkFailed(BadPrice)), rows)
    ensures !PriceRejected(data) && (forall k :: k in data ==> k !in AllowedFields) ==>
              Update(rows, ids, Some(data)) == Outcome(Response(400, BulkFailed(NoFields)), rows)
  {
    if !PriceRejected(data) && (forall k :: k in data ==> k !in AllowedFields) {
      assert Allowed(data) == map[];
    }
  }

  /** A successful update rewrites only the targets, and in each target only
      the allow-listed columns present in `data`; the id and the linked
      requests stay, and `updated_count` is the number of targets present. */
  lemma UpdateWritesOnlyAllowed(rows: seq<Package>, ids: seq<int>, d: map<string, Value>)
    requires Update(rows, ids, Some(d)).resp.status == 200
    ensures var o := Update(rows, ids, Some(d));
            && o.resp.body == Updated(o.resp.body.message, Count(rows, PackageTargeted(ids)), ids)
            && |o.table| == |rows|
            && forall i :: 0 <= i < |rows| ==>
                 if rows[i].id !in ids then o.table[i] == rows[i]
                 else ApplyAllowed(rows[i], d, o.table[i])
  {
    var u := Allowed(d);
    assert UpdateAccepted(u) && |u| > 0 && !PriceRejected(d);
    var t := ApplyRows(rows, ids, u);
    assert Update(rows, ids, Some(d)).table == t;
    forall i | 0 <= i < |rows| && rows[i].id in ids
      ensures t[i] == Apply(rows[i], u)
    {
    }
    forall p: Package
      ensures ApplyAllowed(p, d, Apply(p, u))
    {
      assert "package_title" in u <==> "package_title" in d;
      assert "package_description" in u <==> "package_description" in d;
      assert "package_price" in u <==> "package_price" in d;
    }
  }

  /** `q` is `p` with the allow-listed columns present in `d` written. */
  predicate ApplyAllowed(p: Package, d: map<string, Value>, q: Package)
    requires UpdateAccepted(Allowed(d))
  {
    && q.id == p.id && q.requests == p.requests
    && q.title == (if "package_title" in d then d["package_title"].s else p.title)
    && q.description == (if "package_description" in d then d["package_description"].s else p.description)
    && q.price == (if "package_price" in d then d["package_price"].n else p.price)
  }

  /** A targeted package with linked requests. */
  predicate SomeTargetHasRequests(rows: seq<Package>, ids: seq<int>) {
    exists i :: 0 <= i < |rows| && rows[i].id in ids && |rows[i].requests| > 0
  }

  predicate IsBlockedRowOf(rows: seq<Package>, ids: seq<int>, w: WithRequests) {
    exists p :: p in rows && p.id in ids && |p.requests| > 0 && w == WithRequests(p.id, p.title, |p.requests|)
  }

  /** Delete is all or nothing, first half: if a target has linked requests
      the answer is 400, it lists every such target with its request count
      and nothing else, and no package is removed. */
  lemma {:induction false} DeleteRefusedWithRequests(rows: seq<Package>, ids: seq<int>)
    requires SomeTargetHasRequests(rows, ids)
    ensures var o := Delete(rows, ids);
            && o.resp.status == 400 && o.table == rows
            && (forall i :: 0 <= i < |rows| && rows[i].id in ids && |rows[i].requests| > 0 ==>
                  WithRequests(rows[i].id, rows[i].title, |rows[i].requests|) in o.resp.body.packages)
            && (forall w :: w in o.resp.body.packages ==> IsBlockedRowOf(rows, ids, w))
  {
    var blocked := Filter(rows, TargetWithRequests(ids));
    var i :| 0 <= i < |rows| && rows[i].id in ids && |rows[i].requests| > 0;
    assert rows[i] in blocked;
    var w := WithRequestsRows(blocked);
    forall j | 0 <= j < |rows| && rows[j].id in ids && |rows[j].requests| > 0
      ensures WithRequests(rows[j].id, rows[j].title, |rows[j].requests|) in w
    {
      assert rows[j] in blocked;
      var k :| 0 <= k < |blocked| && blocked[k] == rows[j];
      assert w[k] == WithRequests(rows[j].id, rows[j].title, |rows[j].requests|);
    }
    forall x | x in w
      ensures IsBlockedRowOf(rows, ids, x)
    {
      var k :| 0 <= k < |w| && w[k] == x;
      assert blocked[k] in blocked;
      var p := blocked[k];
      assert p in rows && p.id in ids && |p.requests| > 0 && x == WithRequests(p.id, p.title, |p.requests|);
    }
  }

  /** Delete is all or nothing, second half: otherwise exactly the targets
      are removed, and `deleted_count` is their number. */
  lemma {:induction false} DeleteRemovesExactlyTargets(rows: seq<Package>, ids: seq<int>)
    requires !SomeTargetHasRequests(rows, ids)
    ensures var o := Delete(rows, ids);
            && o.resp.status == 200
            && o.resp.body == Deleted(o.resp.body.message, Count(rows, PackageTargeted(ids)), ids)
            && (forall p :: p in o.table <==> p in rows && p.id !in ids)
            && o.resp.body.deletedCount + |o.table| == |rows|
  {
    CountComplement(rows, PackageTargeted(ids), PackageNotTargeted(ids));
  }
}

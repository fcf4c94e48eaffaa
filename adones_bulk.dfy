/** `POST /api/adones/bulk`: one operation (delete, update, activate, export)
    over a list of add-on ids. The ids are filtered first; each operation then
    either refuses as a whole, leaving the table as it was, or applies to every
    targeted row that exists. */
module AdOnesBulk {
  import opened Common
  import opened Text
  import opened Seqs
  import opened Storage

  /** The request body: `operation` (None when missing or empty), `ids` (None
      when missing or not an array; an element is None when it does not parse
      as an integer) and `data` (None when missing or falsy). */
  datatype BulkRequest = BulkRequest(operation: Option<string>, ids: Option<seq<Option<int>>>,
                                     data: Option<map<string, Value>>)

  /** A row of the 409 answer to a refused delete. */
  datatype UsedRow = UsedRow(id: int, title: string, requestCount: nat)

  /** A row of the 409 answer to a refused title update. */
  datatype ConflictRow = ConflictRow(id: int, title: string)

  datatype BulkBody =
    | Processed(message: string, operation: string, affectedCount: nat, processedIds: seq<int>)
    | Exported(message: string, data: seq<AdOne>, timestamp: int, totalRecords: nat)
    | InUse(message: string, used: seq<UsedRow>)
    | Conflicts(message: string, conflicts: seq<ConflictRow>)
    | BulkFailed(message: string)

  /** The answer and the add-on table after the request. */
  datatype Outcome = Outcome(resp: Response<BulkBody>, table: seq<AdOne>)

  const MissingFields: string := "Missing required fields: operation, ids"
  const NoValidIds: string := "No valid add-on IDs provided"
  const InUseMessage: string := "Some add-ons are being used and cannot be deleted"
  const MissingData: string := "Missing data for update operation"
  const NegativePrice: string := "Price must be a positive number"
  const ConflictMessage: string := "Title conflicts with existing add-ons"
  const InvalidOperation: string := "Invalid operation. Supported operations: delete, update, activate, export"
  const OperationFailed: string := "Failed to perform bulk operation"

  function CountMessage(verb: string, n: nat): string {
    verb + " " + DecimalString(n) + " add-on(s)"
  }

  // ------------------------------------------------------------ delete

  /** A targeted row that has at least one linked request. */
  function UsedTarget(ids: seq<int>): AdOne -> bool {
    (r: AdOne) => r.id in ids && r.requestCount > 0
  }

  function UsedRows(rows: seq<AdOne>): (u: seq<UsedRow>)
    ensures |u| == |rows|
    ensures forall i :: 0 <= i < |u| ==> u[i] == UsedRow(rows[i].id, rows[i].title, rows[i].requestCount)
  {
    seq(|rows|, i requires 0 <= i < |rows| => UsedRow(rows[i].id, rows[i].title, rows[i].requestCount))
  }

  function Delete(rows: seq<AdOne>, ids: seq<int>): Outcome {
    var used := Filter(rows, UsedTarget(ids));
    if |used| > 0 then Outcome(Response(409, InUse(InUseMessage, UsedRows(used))), rows)
    else
      var n := Count(rows, AdTargeted(ids));
      Outcome(Response(200, Processed(CountMessage("Successfully deleted", n), "delete", n, ids)),
              Filter(rows, AdNotTargeted(ids)))
  }

  // ------------------------------------------------------------ update

  /** `data.ad_price !== undefined && data.ad_price < 0`. */
  predicate HasNegativePrice(data: map<string, Value>) {
    "ad_price" in data && data["ad_price"].Num? && data["ad_price"].n < 0
  }

  /** `if (data.ad_title)`: the title conflict query runs. */
  predicate ProbesTitle(data: map<string, Value>) {
    "ad_title" in data && Truthy(data["ad_title"])
  }

  /** The ORM's reading of a JSON string as a `DateTime` column value (an
      ISO 8601 date), in milliseconds; None when the string is not a date. */
  type DateParser = string -> Option<int>

  /** A key and value the ORM writes to an add-on column. `updatedAt` is
      overwritten by the handler, so any value under it is harmless; a
      `createdAt` value must be a string the ORM reads as a date. */
  predicate WritableColumn(k: string, v: Value, parseDate: DateParser) {
    || k == "updatedAt"
    || ((k == "ad_title" || k == "ad_description" || k == "ad_information") && v.Str?)
    || (k == "ad_price" && v.Num?)
    || (k == "createdAt" && v.Str? && parseDate(v.s).Some?)
  }

  /** The ORM accepts `{ ...data, updatedAt }` as an update of add-on rows. */
  predicate PatchAccepted(data: map<string, Value>, parseDate: DateParser) {
    forall k :: k in data ==> WritableColumn(k, data[k], parseDate)
  }

  /** A row whose title equals `title` ignoring case and which is not a target. */
  function TitleConflict(ids: seq<int>, title: string): AdOne -> bool {
    (r: AdOne) => EqualsIgnoreCase(r.title, title) && r.id !in ids
  }

  function ConflictRows(rows: seq<AdOne>): (c: seq<ConflictRow>)
    ensures |c| == |rows|
    ensures forall i :: 0 <= i < |c| ==> c[i] == ConflictRow(rows[i].id, rows[i].title)
  {
    seq(|rows|, i requires 0 <= i < |rows| => ConflictRow(rows[i].id, rows[i].title))
  }

  /** One row after `{ ...data, updatedAt: now }`. */
  function Patch(r: AdOne, data: map<string, Value>, now: int, parseDate: DateParser): AdOne
    requires PatchAccepted(data, parseDate)
  {
    AdOne(r.id,
          if "ad_title" in data then data["ad_title"].s else r.title,
          if "ad_price" in data then data["ad_price"].n else r.price,
          if "ad_description" in data then data["ad_description"].s else r.description,
          if "ad_information" in data then data["ad_information"].s else r.information,
          r.requestCount,
          if "createdAt" in data then parseDate(data["createdAt"].s).value else r.createdAt,
          now)
  }

  /** `updateMany` over the targets with `data`. */
  function PatchRows(rows: seq<AdOne>, ids: seq<int>, data: map<string, Value>, now: int,
                     parseDate: DateParser): (t: seq<AdOne>)
    requires PatchAccepted(data, parseDate)
    ensures |t| == |rows|
    ensures forall i :: 0 <= i < |t| ==>
      t[i] == if rows[i].id in ids then Patch(rows[i], data, now, parseDate) else rows[i]
  {
    seq(|rows|, i requires 0 <= i < |rows| =>
      if rows[i].id in ids then Patch(rows[i], data, now, parseDate) else rows[i])
  }

  function Update(rows: seq<AdOne>, ids: seq<int>, data: Option<map<string, Value>>, now: int,
                  parseDate: DateParser): Outcome {
    if data.None? then Outcome(Response(400, BulkFailed(MissingData)), rows)
    else
      var d := data.value;
      if HasNegativePrice(d) then Outcome(Response(400, BulkFailed(NegativePrice)), rows)
      else if ProbesTitle(d) && !d["ad_title"].Str? then Outcome(Response(500, BulkFailed(OperationFailed)), rows)
      else if ProbesTitle(d) && |Filter(rows, TitleConflict(ids, d["ad_title"].s))| > 0 then
        Outcome(Response(409, Conflicts(ConflictMessage,
                                        ConflictRows(Filter(rows, TitleConflict(ids, d["ad_title"].s))))), rows)
      else if !PatchAccepted(d, parseDate) then Outcome(Response(500, BulkFailed(OperationFailed)), rows)
      else
        var n := Count(rows, AdTargeted(ids));
        Outcome(Response(200, Processed(CountMessage("Successfully updated", n), "update", n, ids)),
                PatchRows(rows, ids, d, now, parseDate))
  }

  // ------------------------------------------------------------ activate, export

  /** `updateMany` over the targets with `{ updatedAt: now }`. */
  function TouchRows(rows: seq<AdOne>, ids: seq<int>, now: int): (t: seq<AdOne>)
    ensures |t| == |rows|
    ensures forall i :: 0 <= i < |t| ==>
      t[i] == if rows[i].id in ids then rows[i].(updatedAt := now) else rows[i]
  {
    seq(|rows|, i requires 0 <= i < |rows| =>
      if rows[i].id in ids then rows[i].(updatedAt := now) else rows[i])
  }

  function Activate(rows: seq<AdOne>, ids: seq<int>, now: int): Outcome {
    var n := Count(rows, AdTargeted(ids));
    Outcome(Response(200, Processed(CountMessage("Successfully activated", n), "activate", n, ids)),
            TouchRows(rows, ids, now))
  }

  function Export(rows: seq<AdOne>, ids: seq<int>, now: int): Outcome {
    var data := Filter(rows, AdTargeted(ids));
    Outcome(Response(200, Exported(CountMessage("Exported", |data|), data, now, |data|)), rows)
  }

  // ------------------------------------------------------------ dispatch

  /** The whole handler on the add-on table as it was before the request. */
  function Bulk(rows: seq<AdOne>, req: BulkRequest, now: int, parseDate: DateParser): Outcome {
    if !Present(req.operation) || req.ids.None? then
      Outcome(Response(400, BulkFailed(MissingFields)), rows)
    else
      var ids := ParseIds(req.ids.value);
      if |ids| == 0 then Outcome(Response(400, BulkFailed(NoValidIds)), rows)
      else
        match req.operation.value
        case "delete" => Delete(rows, ids)
        case "update" => Update(rows, ids, req.data, now, parseDate)
        case "activate" => Activate(rows, ids, now)
        case "export" => Export(rows, ids, now)
        case _ => Outcome(Response(400, BulkFailed(InvalidOperation)), rows)
  }

  method Post(db: Store, req: BulkRequest, now: int, parseDate: DateParser) returns (resp: Response<BulkBody>)
    requires db.Valid()
    modifies db
    ensures db.Valid()
    ensures db.packages == old(db.packages) && db.users == old(db.users)
    ensures db.nextAdId == old(db.nextAdId) && db.nextPackageId == old(db.nextPackageId)
    ensures db.nextUserId == old(db.nextUserId)
    ensures resp == Bulk(old(db.adOnes), req, now, parseDate).resp
    ensures db.adOnes == Bulk(old(db.adOnes), req, now, parseDate).table
  {
    if !Present(req.operation) || req.ids.None? {
      return Response(400, BulkFailed(MissingFields));
    }
    var ids := ParseIds(req.ids.value);
    if |ids| == 0 {
      return Response(400, BulkFailed(NoValidIds));
    }
    var op := req.operation.value;
    if op == "delete" {
      resp := DeleteTargets(db, ids);
    } else if op == "update" {
      resp := UpdateTargets(db, ids, req.data, now, parseDate);
    } else if op == "activate" {
      resp := ActivateTargets(db, ids, now);
    } else if op == "export" {
      var data := Filter(db.adOnes, AdTargeted(ids));
      resp := Response(200, Exported(CountMessage("Exported", |data|), data, now, |data|));
    } else {
      resp := Response(400, BulkFailed(InvalidOperation));
    }
  }

  method DeleteTargets(db: Store, ids: seq<int>) returns (resp: Response<BulkBody>)
    requires db.Valid()
    modifies db
    ensures db.Valid()
    ensures db.packages == old(db.packages) && db.users == old(db.users)
    ensures db.nextAdId == old(db.nextAdId) && db.nextPackageId == old(db.nextPackageId)
    ensures db.nextUserId == old(db.nextUserId)
    ensures resp == Delete(old(db.adOnes), ids).resp
    ensures db.adOnes == Delete(old(db.adOnes), ids).table
  {
    var used := Filter(db.adOnes, UsedTarget(ids));
    if |used| > 0 {
      return Response(409, InUse(InUseMessage, UsedRows(used)));
    }
    var n := Count(db.adOnes, AdTargeted(ids));
    FilterAdTableOk(db.adOnes, db.nextAdId, AdNotTargeted(ids));
    db.adOnes := Filter(db.adOnes, AdNotTargeted(ids));
    resp := Response(200, Processed(CountMessage("Successfully deleted", n), "delete", n, ids));
  }

  method UpdateTargets(db: Store, ids: seq<int>, req: Option<map<string, Value>>, now: int,
                       parseDate: DateParser)
    returns (resp: Response<BulkBody>)
    requires db.Valid()
    modifies db
    ensures db.Valid()
    ensures db.packages == old(db.packages) && db.users == old(db.users)
    ensures db.nextAdId == old(db.nextAdId) && db.nextPackageId == old(db.nextPackageId)
    ensures db.nextUserId == old(db.nextUserId)
    ensures resp == Update(old(db.adOnes), ids, req, now, parseDate).resp
    ensures db.adOnes == Update(old(db.adOnes), ids, req, now, parseDate).table
  {
    if req.None? {
      return Response(400, BulkFailed(MissingData));
    }
    var data := req.value;
    if HasNegativePrice(data) {
      return Response(400, BulkFailed(NegativePrice));
    }
    if ProbesTitle(data) {
      if !data["ad_title"].Str? {
        return Response(500, BulkFailed(OperationFailed));
      }
      var conflicts := Filter(db.adOnes, TitleConflict(ids, data["ad_title"].s));
      if |conflicts| > 0 {
        return Response(409, Conflicts(ConflictMessage, ConflictRows(conflicts)));
      }
    }
    if !PatchAccepted(data, parseDate) {
      return Response(500, BulkFailed(OperationFailed));
    }
    var n := Count(db.adOnes, AdTargeted(ids));
    PatchKeepsTable(db.adOnes, db.nextAdId, ids, data, now, parseDate);
    db.adOnes := PatchRows(db.adOnes, ids, data, now, parseDate);
    resp := Response(200, Processed(CountMessage("Successfully updated", n), "update", n, ids));
  }

  method ActivateTargets(db: Store, ids: seq<int>, now: int) returns (resp: Response<BulkBody>)
    requires db.Valid()
    modifies db
    ensures db.Valid()
    ensures db.packages == old(db.packages) && db.users == old(db.users)
    ensures db.nextAdId == old(db.nextAdId) && db.nextPackageId == old(db.nextPackageId)
    ensures db.nextUserId == old(db.nextUserId)
    ensures resp == Activate(old(db.adOnes), ids, now).resp
    ensures db.adOnes == Activate(old(db.adOnes), ids, now).table
  {
    var n := Count(db.adOnes, AdTargeted(ids));
    TouchKeepsTable(db.adOnes, db.nextAdId, ids, now);
    db.adOnes := TouchRows(db.adOnes, ids, now);
    resp := Response(200, Processed(CountMessage("Successfully activated", n), "activate", n, ids));
  }

  /** A successful update keeps the table invariant: ids are not written and a
      written price is not negative. */
  lemma PatchKeepsTable(rows: seq<AdOne>, nextId: int, ids: seq<int>, data: map<string, Value>, now: int,
                        parseDate: DateParser)
    requires AdTableOk(rows, nextId)
    requires PatchAccepted(data, parseDate) && !HasNegativePrice(data)
    ensures AdTableOk(PatchRows(rows, ids, data, now, parseDate), nextId)
  {
  }

  lemma TouchKeepsTable(rows: seq<AdOne>, nextId: int, ids: seq<int>, now: int)
    requires AdTableOk(rows, nextId)
    ensures AdTableOk(TouchRows(rows, ids, now), nextId)
  {
  }
}

/** Properties of the bulk handler, stated on `Bulk`, the function `Post` is
    proved to follow. */
module AdOnesBulkLaws {
  import opened Common
  import opened Text
  import opened Seqs
  import opened Storage
  import opened AdOnesBulk

  /** A request that passes the first two checks, with its filtered ids. */
  predicate Dispatched(req: BulkRequest, op: string) {
    Present(req.operation) && req.operation.value == op && req.ids.Some? && |ParseIds(req.ids.value)| > 0
  }

  /** A dispatched "delete" reaches the delete operation with the filtered ids;
      likewise for the other three operations below. */
  lemma DispatchDelete(rows: seq<AdOne>, req: BulkRequest, now: int, parseDate: DateParser)
    requires Dispatched(req, "delete")
    ensures Bulk(rows, req, now, parseDate) == Delete(rows, ParseIds(req.ids.value))
  {
  }

  lemma DispatchUpdate(rows: seq<AdOne>, req: BulkRequest, now: int, parseDate: DateParser)
    requires Dispatched(req, "update")
    ensures Bulk(rows, req, now, parseDate) == Update(rows, ParseIds(req.ids.value), req.data, now, parseDate)
  {
  }

  lemma DispatchActivate(rows: seq<AdOne>, req: BulkRequest, now: int, parseDate: DateParser)
    requires Dispatched(req, "activate")
    ensures Bulk(rows, req, now, parseDate) == Activate(rows, ParseIds(req.ids.value), now)
  {
  }

  lemma DispatchExport(rows: seq<AdOne>, req: BulkRequest, now: int, parseDate: DateParser)
    requires Dispatched(req, "export")
    ensures Bulk(rows, req, now, parseDate) == Export(rows, ParseIds(req.ids.value), now)
  {
  }

  /** Every refusal leaves the table as it was. */
  lemma RefusalLeavesTable(rows: seq<AdOne>, req: BulkRequest, now: int, parseDate: DateParser)
    ensures Bulk(rows, req, now, parseDate).resp.status != 200 ==> Bulk(rows, req, now, parseDate).table == rows
  {
  }

  /** The ids are filtered before the operation name is looked at: without a
      numeric id even an unknown operation is answered with "No valid add-on IDs
      provided". */
  lemma IdsCheckedBeforeOperation(rows: seq<AdOne>, req: BulkRequest, now: int, parseDate: DateParser)
    requires Present(req.operation) && req.ids.Some?
    requires forall i :: 0 <= i < |req.ids.value| ==> req.ids.value[i].None?
    ensures Bulk(rows, req, now, parseDate) == Outcome(Response(400, BulkFailed(NoValidIds)), rows)
  {
  }

  /** An operation outside delete, update, activate and export is refused. */
  lemma UnknownOperationRejected(rows: seq<AdOne>, req: BulkRequest, now: int, parseDate: DateParser)
    requires Present(req.operation) && req.ids.Some? && |ParseIds(req.ids.value)| > 0
    requires req.operation.value !in {"delete", "update", "activate", "export"}
    ensures Bulk(rows, req, now, parseDate) == Outcome(Response(400, BulkFailed(InvalidOperation)), rows)
  {
  }

  /** A targeted row with at least one linked request. */
  predicate SomeTargetUsed(rows: seq<AdOne>, ids: seq<int>) {
    exists i :: 0 <= i < |rows| && rows[i].id in ids && rows[i].requestCount > 0
  }

  /** Delete is all or nothing, first half: if a target has a linked request
      the answer is 409, it lists every such target and nothing else, and no
      row is removed. */
  lemma {:induction false} DeleteRefusedWhenUsed(rows: seq<AdOne>, ids: seq<int>)
    requires SomeTargetUsed(rows, ids)
    ensures var o := Delete(rows, ids);
            && o.resp.status == 409 && o.table == rows
            && (forall i :: 0 <= i < |rows| && rows[i].id in ids && rows[i].requestCount > 0 ==>
                  UsedRow(rows[i].id, rows[i].title, rows[i].requestCount) in o.resp.body.used)
            && (forall u :: u in o.resp.body.used ==> IsUsedRowOf(rows, ids, u))
  {
    var used := Filter(rows, UsedTarget(ids));
    var i :| 0 <= i < |rows| && rows[i].id in ids && rows[i].requestCount > 0;
    assert rows[i] in used;
    var u := UsedRows(used);
    forall j | 0 <= j < |rows| && rows[j].id in ids && rows[j].requestCount > 0
      ensures UsedRow(rows[j].id, rows[j].title, rows[j].requestCount) in u
    {
      assert rows[j] in used;
      var k :| 0 <= k < |used| && used[k] == rows[j];
      assert u[k] == UsedRow(rows[j].id, rows[j].title, rows[j].requestCount);
    }
    forall x | x in u
      ensures IsUsedRowOf(rows, ids, x)
    {
      var k :| 0 <= k < |u| && u[k] == x;
      assert used[k] in used;
      var r := used[k];
      assert r in rows && r.id in ids && r.requestCount > 0 && x == UsedRow(r.id, r.title, r.requestCount);
    }
  }

  /** Delete is all or nothing, second half: when no target has a linked
      request, exactly the targets are removed and `affectedCount` is their
      number. */
  lemma {:induction false} DeleteRemovesExactlyTargets(rows: seq<AdOne>, ids: seq<int>)
    requires !SomeTargetUsed(rows, ids)
    ensures var o := Delete(rows, ids);
            && o.resp.status == 200
            && (forall r :: r in o.table <==> r in rows && r.id !in ids)
            && o.resp.body.affectedCount + |o.table| == |rows|
  {
    CountComplement(rows, AdTargeted(ids), AdNotTargeted(ids));
  }

  /** `u` reports a targeted row of the table that has linked requests. */
  predicate IsUsedRowOf(rows: seq<AdOne>, ids: seq<int>, u: UsedRow) {
    exists r :: r in rows && r.id in ids && r.requestCount > 0 && u == UsedRow(r.id, r.title, r.requestCount)
  }

  /** An update with a negative price is refused before anything else is done. */
  lemma UpdateNegativePriceRejected(rows: seq<AdOne>, req: BulkRequest, now: int, parseDate: DateParser)
    requires Dispatched(req, "update") && req.data.Some? && HasNegativePrice(req.data.value)
    ensures Bulk(rows, req, now, parseDate) == Outcome(Response(400, BulkFailed(NegativePrice)), rows)
  {
  }

  /** The title check ignores case and ignores the targets themselves: with an
      acceptable non-empty new title, the update is refused with 409 exactly
      when a row outside the targets already has that title up to case. */
  lemma {:induction false} UpdateTitleConflict(rows: seq<AdOne>, ids: seq<int>, data: map<string, Value>,
                                               now: int, parseDate: DateParser, title: string)
    requires !HasNegativePrice(data) && PatchAccepted(data, parseDate)
    requires "ad_title" in data && data["ad_title"] == Str(title) && title != ""
    ensures Update(rows, ids, Some(data), now, parseDate).resp.status == 409 <==>
              exists i :: 0 <= i < |rows| && EqualsIgnoreCase(rows[i].title, title) && rows[i].id !in ids
  {
    var conflicts := Filter(rows, TitleConflict(ids, title));
    if exists i :: 0 <= i < |rows| && EqualsIgnoreCase(rows[i].title, title) && rows[i].id !in ids {
      var i :| 0 <= i < |rows| && EqualsIgnoreCase(rows[i].title, title) && rows[i].id !in ids;
      assert rows[i] in conflicts;
    }
  }

  /** A successful update rewrites only the targets, and in each target only
      the supplied columns and `updatedAt`; the id and the linked requests
      stay, and so does the creation time unless the data supplies a date for
      it. No row is added or removed. */
  lemma UpdateChangesOnlyTargets(rows: seq<AdOne>, ids: seq<int>, d: map<string, Value>, now: int,
                                 parseDate: DateParser)
    requires Update(rows, ids, Some(d), now, parseDate).resp.status == 200
    ensures var t := Update(rows, ids, Some(d), now, parseDate).table;
            && PatchAccepted(d, parseDate)
            && |t| == |rows|
            && forall i :: 0 <= i < |rows| ==>
                 if rows[i].id !in ids then t[i] == rows[i] else Patched(t[i], rows[i], d, now, parseDate)
  {
    UpdateSucceeded(rows, ids, Some(d), now, parseDate);
    var t := PatchRows(rows, ids, d, now, parseDate);
    forall i | 0 <= i < |rows| && rows[i].id in ids
      ensures Patched(t[i], rows[i], d, now, parseDate)
    {
      PatchIsPatched(rows[i], d, now, parseDate);
    }
  }

  /** `t` is `r` after the update: the supplied columns take their new values,
      `updatedAt` is the handler's clock, everything else stays. */
  predicate Patched(t: AdOne, r: AdOne, d: map<string, Value>, now: int, parseDate: DateParser)
    requires PatchAccepted(d, parseDate)
  {
    && t.id == r.id && t.requestCount == r.requestCount && t.updatedAt == now
    && t.title == (if "ad_title" in d then d["ad_title"].s else r.title)
    && t.price == (if "ad_price" in d then d["ad_price"].n else r.price)
    && t.description == (if "ad_description" in d then d["ad_description"].s else r.description)
    && t.information == (if "ad_information" in d then d["ad_information"].s else r.information)
    && t.createdAt == (if "createdAt" in d then parseDate(d["createdAt"].s).value else r.createdAt)
  }

  lemma PatchIsPatched(r: AdOne, d: map<string, Value>, now: int, parseDate: DateParser)
    requires PatchAccepted(d, parseDate)
    ensures Patched(Patch(r, d, now, parseDate), r, d, now, parseDate)
  {
  }

  /** `...data` reaches the ORM unfiltered: a `createdAt` string it reads as a
      date is written to every target... */
  lemma CreatedAtWritten(rows: seq<AdOne>, ids: seq<int>, stamp: string, date: int, now: int,
                         parseDate: DateParser)
    requires parseDate(stamp) == Some(date)
    ensures var o := Update(rows, ids, Some(map["createdAt" := Str(stamp)]), now, parseDate);
            && o.resp.status == 200 && |o.table| == |rows|
            && forall i :: 0 <= i < |rows| && rows[i].id in ids ==> o.table[i].createdAt == date
  {
    var d := map["createdAt" := Str(stamp)];
    assert forall k :: k in d ==> k == "createdAt";
    assert PatchAccepted(d, parseDate);
    var t := PatchRows(rows, ids, d, now, parseDate);
    assert Update(rows, ids, Some(d), now, parseDate).table == t;
  }

  /** ... and one it cannot read fails the whole update with 500, leaving the
      table as it was. */
  lemma UnreadableCreatedAtRejected(rows: seq<AdOne>, ids: seq<int>, stamp: string, now: int,
                                    parseDate: DateParser)
    requires parseDate(stamp).None?
    ensures Update(rows, ids, Some(map["createdAt" := Str(stamp)]), now, parseDate)
         == Outcome(Response(500, BulkFailed(OperationFailed)), rows)
  {
    var d := map["createdAt" := Str(stamp)];
    assert !WritableColumn("createdAt", d["createdAt"], parseDate);
  }

  /** Activate rewrites only `updatedAt`, and only on the targets. */
  lemma ActivateTouchesOnlyUpdatedAt(rows: seq<AdOne>, req: BulkRequest, now: int, parseDate: DateParser)
    requires Dispatched(req, "activate")
    ensures var ids, t := ParseIds(req.ids.value), Bulk(rows, req, now, parseDate).table;
            && Bulk(rows, req, now, parseDate).resp.status == 200
            && |t| == |rows|
            && forall i :: 0 <= i < |rows| ==>
                 t[i] == if rows[i].id in ids then rows[i].(updatedAt := now) else rows[i]
  {
  }

  /** Export changes nothing; it returns exactly the targeted rows, in table
      order, and `totalRecords` is their number. */
  lemma ExportLeavesTable(rows: seq<AdOne>, req: BulkRequest, now: int, parseDate: DateParser)
    requires Dispatched(req, "export")
    ensures var ids, o := ParseIds(req.ids.value), Bulk(rows, req, now, parseDate);
            && o.table == rows && o.resp.status == 200
            && o.resp.body.totalRecords == |o.resp.body.data|
            && (forall r :: r in o.resp.body.data <==> r in rows && r.id in ids)
  {
  }

  /** The count a successful delete reports is the number of targeted rows
      present in the table, not the number of ids sent. */
  lemma DeleteAffectedCount(rows: seq<AdOne>, ids: seq<int>)
    requires Delete(rows, ids).resp.status == 200
    ensures Delete(rows, ids).resp.body == Processed(Delete(rows, ids).resp.body.message, "delete",
                                                     Count(rows, AdTargeted(ids)), ids)
  {
  }

  /** The same for a successful update. */
  lemma UpdateAffectedCount(rows: seq<AdOne>, ids: seq<int>, data: Option<map<string, Value>>, now: int,
                            parseDate: DateParser)
    requires Update(rows, ids, data, now, parseDate).resp.status == 200
    ensures Update(rows, ids, data, now, parseDate).resp.body == Processed(Update(rows, ids, data, now, parseDate).resp.body.message,
                                                                "update", Count(rows, AdTargeted(ids)), ids)
  {
    UpdateSucceeded(rows, ids, data, now, parseDate);
  }

  /** The one outcome of a successful update. */
  lemma UpdateSucceeded(rows: seq<AdOne>, ids: seq<int>, data: Option<map<string, Value>>, now: int,
                        parseDate: DateParser)
    requires Update(rows, ids, data, now, parseDate).resp.status == 200
    ensures data.Some? && PatchAccepted(data.value, parseDate)
    ensures var n := Count(rows, AdTargeted(ids));
            Update(rows, ids, data, now, parseDate)
              == Outcome(Response(200, Processed(CountMessage("Successfully updated", n), "update", n, ids)),
                         PatchRows(rows, ids, data.value, now, parseDate))
  {
    var d := data.value;
    if HasNegativePrice(d) || (ProbesTitle(d) && !d["ad_title"].Str?) {
      assert false;
    } else if ProbesTitle(d) && |Filter(rows, TitleConflict(ids, d["ad_title"].s))| > 0 {
      assert false;
    } else if !PatchAccepted(d, parseDate) {
      assert false;
    }
  }

  /** The same for activate, which always succeeds. */
  lemma ActivateAffectedCount(rows: seq<AdOne>, ids: seq<int>, now: int)
    ensures Activate(rows, ids, now).resp.body == Processed(Activate(rows, ids, now).resp.body.message,
                                                            "activate", Count(rows, AdTargeted(ids)), ids)
  {
  }

  /** The handler's own checks let one title update give two rows the same
      title: the conflict query skips the targets, and every target receives
      the new title. When every row is a target, the update succeeds and
      leaves all of them with that title. */
  lemma SharedTitleUpdate(rows: seq<AdOne>, ids: seq<int>, title: string, now: int, parseDate: DateParser)
    requires forall r :: r in rows ==> r.id in ids
    ensures var o := Update(rows, ids, Some(map["ad_title" := Str(title)]), now, parseDate);
            && o.resp.status == 200 && |o.table| == |rows|
            && forall r :: r in o.table ==> r.title == title
  {
    var d := map["ad_title" := Str(title)];
    assert forall k :: k in d ==> k == "ad_title";
    assert PatchAccepted(d, parseDate) && !HasNegativePrice(d);
    assert |Filter(rows, TitleConflict(ids, title))| == 0;
    var t := PatchRows(rows, ids, d, now, parseDate);
    assert Update(rows, ids, Some(d), now, parseDate).table == t;
    forall r | r in t
      ensures r.title == title
    {
      var i :| 0 <= i < |t| && t[i] == r;
      assert rows[i] in rows;
    }
  }

  /** Two add-ons "A" and "B" updated together to "C" are both titled "C". */
  lemma TitleUpdateCanDuplicate(parseDate: DateParser)
    ensures var rows := [AdOne(1, "A", 5, "d", "", 0, 0, 0), AdOne(2, "B", 5, "d", "", 0, 0, 0)];
            var req := BulkRequest(Some("update"), Some([Some(1), Some(2)]), Some(map["ad_title" := Str("C")]));
            var o := Bulk(rows, req, 7, parseDate);
            && o.resp.status == 200 && |o.table| == 2
            && forall r :: r in o.table ==> r.title == "C"
  {
    var rows := [AdOne(1, "A", 5, "d", "", 0, 0, 0), AdOne(2, "B", 5, "d", "", 0, 0, 0)];
    var req := BulkRequest(Some("update"), Some([Some(1), Some(2)]), Some(map["ad_title" := Str("C")]));
    var ids := ParseIds([Some(1), Some(2)]);
    assert 1 in ids && 2 in ids;
    DispatchUpdate(rows, req, 7, parseDate);
    SharedTitleUpdate(rows, ids, "C", 7, parseDate);
  }
}

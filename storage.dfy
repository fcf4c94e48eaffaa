/** The rows the route handlers read and write, and an in-memory store that
    stands in for the database: the add-on table, the package table (each package
    carrying the statuses of its linked requests) and the user table keyed by
    lower-cased email. Ids are assigned by auto-increment counters. */
module Storage {
  import opened Common
  import opened Text
  import opened Seqs

  /** An add-on row together with the number of requests linked to it. */
  datatype AdOne = AdOne(id: int, title: string, price: int, description: string,
                         information: string, requestCount: nat,
                         createdAt: int, updatedAt: int)

  /** A package row together with the statuses of the requests linked to it. */
  datatype Package = Package(id: int, title: string, description: string, price: int,
                             requests: seq<string>)

  /** A user row; `password` holds the hash of the password, never the password. */
  datatype User = User(id: int, email: string, password: string, firstName: string,
                       lastName: string, phoneNumber: Option<string>,
                       createdAt: int, updatedAt: int)

  /** The order keys the list and search handlers accept: creation time, price
      and number of linked requests. */
  datatype SortKey = ByCreatedAt | ByPrice | ByUsage
  datatype SortOrder = Asc | Desc

  function AdOneKey(k: SortKey): AdOne -> int {
    match k
    case ByCreatedAt => (r: AdOne) => r.createdAt
    case ByPrice => (r: AdOne) => r.price
    case ByUsage => (r: AdOne) => r.requestCount as int
  }

  /** `orderBy: { key: order }` on add-on rows; rows with equal keys keep their
      table order. */
  function OrderAdOnes(rows: seq<AdOne>, k: SortKey, o: SortOrder): (r: seq<AdOne>)
    ensures multiset(r) == multiset(rows)
    ensures o == Asc ==> SortedBy(r, AdOneKey(k))
    ensures o == Desc ==> SortedByDesc(r, AdOneKey(k))
  {
    if o == Asc then SortBy(rows, AdOneKey(k)) else SortByDesc(rows, AdOneKey(k))
  }

  function AdId(r: AdOne): int { r.id }
  function PackageId(p: Package): int { p.id }

  /** The least and the greatest price of a non-empty add-on table (the
      `_min` and `_max` aggregates). */
  function MinPrice(rows: seq<AdOne>): (m: int)
    requires |rows| > 0
    ensures forall i :: 0 <= i < |rows| ==> m <= rows[i].price
    ensures exists i :: 0 <= i < |rows| && m == rows[i].price
  {
    if |rows| == 1 then rows[0].price
    else
      var rest := MinPrice(rows[1..]);
      assert forall i :: 1 <= i < |rows| ==> rows[i] == rows[1..][i - 1];
      Min(rows[0].price, rest)
  }

  function MaxPrice(rows: seq<AdOne>): (m: int)
    requires |rows| > 0
    ensures forall i :: 0 <= i < |rows| ==> rows[i].price <= m
    ensures exists i :: 0 <= i < |rows| && m == rows[i].price
  {
    if |rows| == 1 then rows[0].price
    else
      var rest := MaxPrice(rows[1..]);
      assert forall i :: 1 <= i < |rows| ==> rows[i] == rows[1..][i - 1];
      Max(rows[0].price, rest)
  }

  /** `orderBy: { package_id: 'asc' }`. */
  function OrderById(rows: seq<Package>): (r: seq<Package>)
    ensures |r| == |rows| && multiset(r) == multiset(rows)
    ensures SortedBy(r, PackageId)
  {
    SortBy(rows, PackageId)
  }

  /** The predicate `req.status === status` on a linked request's status. */
  function StatusIs(status: string): string -> bool {
    (s: string) => s == status
  }

  /** Add-on table invariant: ids strictly increase along the table and stay below
      the next id to assign, and no price is negative. */
  predicate AdTableOk(rows: seq<AdOne>, nextId: int) {
    && (forall i, j :: 0 <= i < j < |rows| ==> rows[i].id < rows[j].id)
    && (forall i :: 0 <= i < |rows| ==> rows[i].id < nextId && rows[i].price >= 0)
  }

  /** Package table invariant, the same as for add-ons. */
  predicate PackageTableOk(rows: seq<Package>, nextId: int) {
    && (forall i, j :: 0 <= i < j < |rows| ==> rows[i].id < rows[j].id)
    && (forall i :: 0 <= i < |rows| ==> rows[i].id < nextId && rows[i].price >= 0)
  }

  /** User table invariant: every user sits under its own email, which is lower
      case, and ids are distinct and below the next id to assign. */
  predicate UserTableOk(users: map<string, User>, nextId: int) {
    && (forall k :: k in users ==> users[k].email == k && IsLowerCase(k) && users[k].id < nextId)
    && (forall k1, k2 :: k1 in users && k2 in users && k1 != k2 ==> users[k1].id != users[k2].id)
  }

  /** Keeping some rows of a valid add-on table keeps it valid. */
  lemma FilterAdTableOk(rows: seq<AdOne>, nextId: int, p: AdOne -> bool)
    requires AdTableOk(rows, nextId)
    ensures AdTableOk(Filter(rows, p), nextId)
  {
    assert StrictlyIncreasing(rows, AdId);
    FilterKeepsIncreasing(rows, p, AdId);
    var r := Filter(rows, p);
    assert forall i :: 0 <= i < |r| ==> r[i] in rows;
  }

  /** Keeping some rows of a valid package table keeps it valid. */
  lemma FilterPackageTableOk(rows: seq<Package>, nextId: int, p: Package -> bool)
    requires PackageTableOk(rows, nextId)
    ensures PackageTableOk(Filter(rows, p), nextId)
  {
    assert StrictlyIncreasing(rows, PackageId);
    FilterKeepsIncreasing(rows, p, PackageId);
    var r := Filter(rows, p);
    assert forall i :: 0 <= i < |r| ==> r[i] in rows;
  }

  /** A valid package table is already in id order, so ordering by id keeps it. */
  lemma OrderByIdOfValidTable(rows: seq<Package>, nextId: int)
    requires PackageTableOk(rows, nextId)
    ensures OrderById(rows) == rows
  {
    SortBySorted(rows, PackageId);
  }

  /** The predicate `id in ids` on add-on rows, as a `where: { ad_id: { in: ids } }`. */
  function AdTargeted(ids: seq<int>): AdOne -> bool {
    (r: AdOne) => r.id in ids
  }

  function AdNotTargeted(ids: seq<int>): AdOne -> bool {
    (r: AdOne) => r.id !in ids
  }

  function PackageTargeted(ids: seq<int>): Package -> bool {
    (p: Package) => p.id in ids
  }

  function PackageNotTargeted(ids: seq<int>): Package -> bool {
    (p: Package) => p.id !in ids
  }

  /** `ids.map(id => parseInt(id)).filter(id => !isNaN(id))`: None is an id that
      does not parse; the numeric ids are kept in order. */
  function ParseIds(raw: seq<Option<int>>): (ids: seq<int>)
    ensures |ids| <= |raw|
    ensures forall x :: x in ids <==> Some(x) in raw
    ensures |ids| == 0 <==> forall i :: 0 <= i < |raw| ==> raw[i].None?
  {
    if |raw| == 0 then []
    else
      var rest := ParseIds(raw[1..]);
      SomeInCons(raw);
      if raw[0].Some? then [raw[0].value] + rest else rest
  }

  function Parsed(o: Option<int>): bool { o.Some? }

  lemma SomeInCons(raw: seq<Option<int>>)
    requires |raw| > 0
    ensures forall x :: Some(x) in raw <==> Some(x) == raw[0] || Some(x) in raw[1..]
    ensures forall i :: 0 < i < |raw| ==> raw[i] == raw[1..][i - 1]
  {
    assert raw == [raw[0]] + raw[1..];
  }

  /** Multiplicity: one id is kept per entry that parsed. */
  lemma {:induction false} ParseIdsCount(raw: seq<Option<int>>)
    ensures |ParseIds(raw)| == Count(raw, Parsed)
  {
    if |raw| > 0 {
      ParseIdsCount(raw[1..]);
      ParseIdsCons(raw);
      CountCons(raw, Parsed);
    }
  }

  /** Order and multiplicity: the id parsed at position `i` of the raw list is
      the `k`-th id kept, where `k` is the number of ids parsed before `i`. */
  lemma ParseIdsInOrder(raw: seq<Option<int>>)
    ensures var ids := ParseIds(raw);
            forall i :: 0 <= i < |raw| && raw[i].Some? ==>
              Count(raw[..i], Parsed) < |ids| && ids[Count(raw[..i], Parsed)] == raw[i].value
  {
    forall i | 0 <= i < |raw| && raw[i].Some?
      ensures Count(raw[..i], Parsed) < |ParseIds(raw)| && ParseIds(raw)[Count(raw[..i], Parsed)] == raw[i].value
    {
      ParseIdsAt(raw, i);
    }
  }

  lemma {:induction false} ParseIdsAt(raw: seq<Option<int>>, i: nat)
    requires i < |raw| && raw[i].Some?
    ensures Count(raw[..i], Parsed) < |ParseIds(raw)| && ParseIds(raw)[Count(raw[..i], Parsed)] == raw[i].value
    decreases i
  {
    if i == 0 {
      ParseIdsCons(raw);
      assert raw[..i] == [];
    } else {
      var tail := raw[1..];
      assert tail[i - 1] == raw[i];
      ParseIdsAt(tail, i - 1);
      ParseIdsStep(raw, i);
    }
  }

  /** One step of the induction: the position `i` of `raw` is position `i - 1`
      of its tail, and the ids parsed before it shift by the head's. */
  lemma ParseIdsStep(raw: seq<Option<int>>, i: nat)
    requires 0 < i < |raw| && raw[i].Some?
    requires var tail := raw[1..];
             Count(tail[..i - 1], Parsed) < |ParseIds(tail)| && ParseIds(tail)[Count(tail[..i - 1], Parsed)] == tail[i - 1].value
    ensures Count(raw[..i], Parsed) < |ParseIds(raw)| && ParseIds(raw)[Count(raw[..i], Parsed)] == raw[i].value
  {
    ParseIdsCons(raw);
    CountPrefixCons(raw, i);
  }

  lemma ParseIdsCons(raw: seq<Option<int>>)
    requires |raw| > 0
    ensures ParseIds(raw) == if raw[0].Some? then [raw[0].value] + ParseIds(raw[1..]) else ParseIds(raw[1..])
  {
  }

  lemma CountPrefixCons(raw: seq<Option<int>>, i: nat)
    requires 0 < i <= |raw|
    ensures Count(raw[..i], Parsed) == (if Parsed(raw[0]) then 1 else 0) + Count(raw[1..][..i - 1], Parsed)
  {
    assert raw[..i][1..] == raw[1..][..i - 1];
  }

  class Store {
    var adOnes: seq<AdOne>
    var packages: seq<Package>
    var users: map<string, User>
    var nextAdId: int
    var nextPackageId: int
    var nextUserId: int

    ghost predicate Valid()
      reads this
    {
      && AdTableOk(adOnes, nextAdId)
      && PackageTableOk(packages, nextPackageId)
      && UserTableOk(users, nextUserId)
    }

    /** An empty database; auto-increment ids start at 1. */
    constructor ()
      ensures Valid()
      ensures adOnes == [] && packages == [] && users == map[]
      ensures nextAdId == 1 && nextPackageId == 1 && nextUserId == 1
    {
      adOnes, packages, users := [], [], map[];
      nextAdId, nextPackageId, nextUserId := 1, 1, 1;
    }
  }
}

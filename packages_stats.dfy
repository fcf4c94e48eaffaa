/** `GET /api/packages/stats`: one entry per package with per-status request
    counts and revenue, the overall revenue and average price, and the most
    popular package chosen by a `reduce`. */
module PackagesStats {
  import opened Common
  import opened Seqs
  import opened Storage

  /** The entry of one package. */
  datatype PackageStat = PackageStat(id: int, title: string, price: int, totalRequests: nat,
                                     pendingRequests: nat, completedRequests: nat,
                                     rejectedRequests: nat, totalRevenue: int)

  function StatOf(p: Package): (s: PackageStat)
    ensures s.id == p.id && s.title == p.title && s.price == p.price
    ensures s.totalRequests == |p.requests|
    ensures s.pendingRequests == Count(p.requests, StatusIs("pending"))
    ensures s.completedRequests == Count(p.requests, StatusIs("completed"))
    ensures s.rejectedRequests == Count(p.requests, StatusIs("rejected"))
    ensures s.pendingRequests + s.completedRequests + s.rejectedRequests <= s.totalRequests
    ensures s.totalRevenue == s.totalRequests * s.price
  {
    StatusCountsBounded(p.requests);
    PackageStat(p.id, p.title, p.price, |p.requests|,
                Count(p.requests, StatusIs("pending")), Count(p.requests, StatusIs("completed")),
                Count(p.requests, StatusIs("rejected")), |p.requests| * p.price)
  }

  /** A request has one status, so the three status counts together do not
      exceed the number of requests. */
  lemma {:induction false} StatusCountsBounded(reqs: seq<string>)
    ensures Count(reqs, StatusIs("pending")) + Count(reqs, StatusIs("completed"))
            + Count(reqs, StatusIs("rejected")) <= |reqs|
  {
    if |reqs| > 0 {
      StatusCountsBounded(reqs[1..]);
    }
  }

  /** `packagesWithStats.map(...)` over the packages in id order. */
  function StatsOf(ps: seq<Package>): (ss: seq<PackageStat>)
    ensures |ss| == |ps| && forall i :: 0 <= i < |ss| ==> ss[i] == StatOf(ps[i])
  {
    seq(|ps|, i requires 0 <= i < |ps| => StatOf(ps[i]))
  }

  /** Entries of id-ordered packages are in id order. */
  lemma StatsInIdOrder(ps: seq<Package>)
    requires SortedBy(ps, PackageId)
    ensures var ss := StatsOf(ps);
            forall i, j :: 0 <= i < j < |ss| ==> ss[i].id <= ss[j].id
  {
    var ss := StatsOf(ps);
    forall i, j | 0 <= i < j < |ss|
      ensures ss[i].id <= ss[j].id
    {
      assert PackageId(ps[i]) <= PackageId(ps[j]);
    }
  }

  function StatRevenue(s: PackageStat): int { s.totalRevenue }
  function PackagePrice(p: Package): int { p.price }

  /** The price sum over the package count, 0 without packages. */
  function MeanPrice(ps: seq<Package>): real {
    if |ps| > 0 then Sum(ps, PackagePrice) as real / |ps| as real else 0.0
  }

  /** The mean does not depend on the order of the packages. */
  lemma MeanPriceOfPermutation(a: seq<Package>, b: seq<Package>)
    requires multiset(a) == multiset(b)
    ensures MeanPrice(a) == MeanPrice(b)
  {
    SumPermutation(a, b, PackagePrice);
    assert |a| == |multiset(a)| == |multiset(b)| == |b|;
  }

  // ------------------------------------------------------------ most popular

  /** The accumulator of the `reduce`: the seed `{ total_requests: 0 }` or an
      entry. */
  datatype Best = Seed | Entry(stat: PackageStat)

  function BestTotal(b: Best): nat {
    match b
    case Seed => 0
    case Entry(s) => s.totalRequests
  }

  /** `stats.reduce((max, stat) => stat.total_requests > max.total_requests ? stat : max, seed)`. */
  function Reduce(ss: seq<PackageStat>, acc: Best): Best {
    if |ss| == 0 then acc
    else Reduce(ss[1..], if ss[0].totalRequests > BestTotal(acc) then Entry(ss[0]) else acc)
  }

  /** The largest request count, 0 for no entries. */
  function MaxTotal(ss: seq<PackageStat>): (m: nat)
    ensures forall i :: 0 <= i < |ss| ==> ss[i].totalRequests <= m
    ensures |ss| > 0 ==> exists i :: 0 <= i < |ss| && ss[i].totalRequests == m
  {
    if |ss| == 0 then 0
    else
      var rest := MaxTotal(ss[1..]);
      assert forall i :: 1 <= i < |ss| ==> ss[i] == ss[1..][i - 1];
      if ss[0].totalRequests >= rest then ss[0].totalRequests else rest
  }

  /** The first position holding the largest count. */
  function FirstMax(ss: seq<PackageStat>): (i: nat)
    requires |ss| > 0
    ensures i < |ss| && ss[i].totalRequests == MaxTotal(ss)
    ensures forall j :: 0 <= j < i ==> ss[j].totalRequests < MaxTotal(ss)
  {
    if ss[0].totalRequests == MaxTotal(ss) then 0
    else
      assert |ss| > 1;
      assert MaxTotal(ss) == MaxTotal(ss[1..]);
      1 + FirstMax(ss[1..])
  }

  /** The fold keeps its accumulator unless some entry has a strictly larger
      count, and then ends at the first entry with the largest count. */
  lemma {:induction false} ReduceSelects(ss: seq<PackageStat>, acc: Best)
    ensures MaxTotal(ss) <= BestTotal(acc) ==> Reduce(ss, acc) == acc
    ensures MaxTotal(ss) > BestTotal(acc) ==> |ss| > 0 && Reduce(ss, acc) == Entry(ss[FirstMax(ss)])
  {
    if |ss| > 0 {
      var next := if ss[0].totalRequests > BestTotal(acc) then Entry(ss[0]) else acc;
      ReduceSelects(ss[1..], next);
      if MaxTotal(ss) > BestTotal(acc) && ss[0].totalRequests != MaxTotal(ss) {
        assert MaxTotal(ss) == MaxTotal(ss[1..]);
        assert FirstMax(ss) == 1 + FirstMax(ss[1..]);
      }
    }
  }

  /** `mostPopularPackage.total_requests > 0 ? mostPopularPackage : null`. */
  function MostPopular(ss: seq<PackageStat>): (m: Option<PackageStat>)
    ensures m.None? <==> forall i :: 0 <= i < |ss| ==> ss[i].totalRequests == 0
    ensures m.Some? ==> exists i :: 0 <= i < |ss| && MostPopularAt(ss, i) && m.value == ss[i]
  {
    ReduceSelects(ss, Seed);
    var b := Reduce(ss, Seed);
    if BestTotal(b) > 0 then
      assert MostPopularAt(ss, FirstMax(ss));
      Some(b.stat)
    else None
  }

  /** Position `i` has a positive count, no entry has more, and every earlier
      entry has strictly fewer: ties go to the earliest entry. */
  predicate MostPopularAt(ss: seq<PackageStat>, i: int) {
    && 0 <= i < |ss|
    && ss[i].totalRequests > 0
    && (forall j :: 0 <= j < |ss| ==> ss[j].totalRequests <= ss[i].totalRequests)
    && (forall j :: 0 <= j < i ==> ss[j].totalRequests < ss[i].totalRequests)
  }

  /** At most one position is the most popular one. */
  lemma MostPopularUnique(ss: seq<PackageStat>, i: int, j: int)
    requires MostPopularAt(ss, i) && MostPopularAt(ss, j)
    ensures i == j
  {
  }

  // ------------------------------------------------------------ the handler

  datatype Overview = Overview(totalPackages: nat, totalRequests: nat, totalRevenue: int,
                               averagePackagePrice: real, mostPopular: Option<PackageStat>)

  datatype StatsBody = StatsBody(overview: Overview, packageStats: seq<PackageStat>)

  /** `requestTotal` is `prisma.request.count()`, the size of the request
      table, which is not part of this model. */
  function Stats(rows: seq<Package>, requestTotal: nat): (resp: Response<StatsBody>)
    ensures resp.status == 200
    ensures resp.body.packageStats == StatsOf(OrderById(rows))
    ensures |resp.body.packageStats| == resp.body.overview.totalPackages == |rows|
    ensures forall i, j :: 0 <= i < j < |rows| ==> resp.body.packageStats[i].id <= resp.body.packageStats[j].id
    ensures resp.body.overview.totalRequests == requestTotal
    ensures resp.body.overview.totalRevenue == Sum(resp.body.packageStats, StatRevenue)
    ensures |rows| == 0 ==> resp.body.overview.averagePackagePrice == 0.0
    ensures |rows| > 0 ==> resp.body.overview.averagePackagePrice == Sum(rows, PackagePrice) as real / |rows| as real
    ensures resp.body.overview.mostPopular == MostPopular(resp.body.packageStats)
  {
    var ordered := OrderById(rows);
    var ss := StatsOf(ordered);
    StatsInIdOrder(ordered);
    MeanPriceOfPermutation(ordered, rows);
    Response(200, StatsBody(Overview(|rows|, requestTotal, Sum(ss, StatRevenue), MeanPrice(ordered), MostPopular(ss)), ss))
  }

  /** The most popular package, when there is one, has at least as many
      requests as every package listed. */
  lemma MostPopularDominates(ps: seq<Package>)
    ensures var m := MostPopular(StatsOf(ps));
            m.Some? ==>
              && m.value.totalRequests > 0
              && forall p :: p in ps ==> |p.requests| <= m.value.totalRequests
  {
    var ss := StatsOf(ps);
    var m := MostPopular(ss);
    if m.Some? {
      var i :| 0 <= i < |ss| && MostPopularAt(ss, i) && m.value == ss[i];
      forall p | p in ps
        ensures |p.requests| <= m.value.totalRequests
      {
        var j :| 0 <= j < |ps| && ps[j] == p;
        assert ss[j].totalRequests == |p.requests|;
      }
    }
  }

  /** No most popular package exactly when no package has a request. */
  lemma NoMostPopularIffNoRequests(ps: seq<Package>)
    ensures MostPopular(StatsOf(ps)).None? <==> forall p :: p in ps ==> |p.requests| == 0
  {
    var ss := StatsOf(ps);
    if !forall p :: p in ps ==> |p.requests| == 0 {
      var p :| p in ps && |p.requests| != 0;
      var j :| 0 <= j < |ps| && ps[j] == p;
      assert ss[j].totalRequests != 0;
    }
  }
}

/** `GET /api/adones/stats`: counts, a period count, price aggregates, the most
    used and the most recent add-ons, and a four-bucket price histogram, all
    read from the add-on table. */
module AdOnesStats {
  import opened Common
  import opened Seqs
  import opened Storage

  // ------------------------------------------------------------ period

  /** `searchParams.get('period') || 'all'`. */
  function PeriodName(period: Option<string>): (p: string)
    ensures p == if Present(period) then period.value else "all"
  {
    if Present(period) then period.value else "all"
  }

  const WeekMillis: int := 7 * 24 * 60 * 60 * 1000

  /** The earliest creation time the period admits, or None for no filter.
      `now` is the request time in milliseconds; `monthStart` and `yearStart`
      are the local midnights of the first day of the current month and year,
      which the handler obtains from the calendar. */
  function Cutoff(period: string, now: int, monthStart: int, yearStart: int): (c: Option<int>)
    ensures c.None? <==> period !in {"week", "month", "year"}
  {
    match period
    case "week" => Some(now - WeekMillis)
    case "month" => Some(monthStart)
    case "year" => Some(yearStart)
    case _ => None
  }

  function CreatedSince(cutoff: Option<int>): AdOne -> bool {
    (r: AdOne) => cutoff.None? || r.createdAt >= cutoff.value
  }

  /** `prisma.adOne.count({ where: dateFilter })`: never more than the table,
      and the whole table for "all" or any period the switch does not know. */
  function PeriodCount(rows: seq<AdOne>, period: string, now: int, monthStart: int, yearStart: int): (n: nat)
    ensures n <= |rows|
    ensures period !in {"week", "month", "year"} ==> n == |rows|
  {
    var cutoff := Cutoff(period, now, monthStart, yearStart);
    assert cutoff.None? ==> Count(rows, CreatedSince(cutoff)) == |rows| by {
      if cutoff.None? {
        FilterAll(rows, CreatedSince(cutoff));
      }
    }
    Count(rows, CreatedSince(cutoff))
  }

  // ------------------------------------------------------------ revenue

  function AdPrice(r: AdOne): int { r.price }

  datatype Revenue = Revenue(total: int, average: real, minimum: int, maximum: int)

  /** The `_sum`, `_avg`, `_min` and `_max` aggregates of the price, each
      falling back to 0 (`|| 0`) when the table is empty. */
  function RevenueOf(rows: seq<AdOne>): (rv: Revenue)
    ensures |rows| == 0 ==> rv == Revenue(0, 0.0, 0, 0)
    ensures rv.minimum <= rv.maximum
    ensures rv.total == Sum(rows, AdPrice)
    ensures |rows| > 0 ==> forall i :: 0 <= i < |rows| ==> rv.minimum <= rows[i].price <= rv.maximum
    ensures |rows| > 0 ==> rv.minimum as real <= rv.average <= rv.maximum as real
    ensures |rows| > 0 ==> && rv.minimum == MinPrice(rows) && rv.maximum == MaxPrice(rows)
                           && rv.average == rv.total as real / |rows| as real
  {
    if |rows| == 0 then Revenue(0, 0.0, 0, 0)
    else
      var lo, hi, total := MinPrice(rows), MaxPrice(rows), Sum(rows, AdPrice);
      SumBetween(rows, lo, hi);
      AverageBetween(total, |rows|, lo, hi);
      Revenue(total, total as real / |rows| as real, lo, hi)
  }

  /** The price sum of `n` rows lies between `n` times a lower and `n` times an
      upper bound of the prices. */
  lemma {:induction false} SumBetween(rows: seq<AdOne>, lo: int, hi: int)
    requires forall i :: 0 <= i < |rows| ==> lo <= rows[i].price <= hi
    ensures |rows| * lo <= Sum(rows, AdPrice) <= |rows| * hi
  {
    if |rows| > 0 {
      assert forall i :: 0 <= i < |rows| - 1 ==> rows[1..][i] == rows[i + 1];
      SumBetween(rows[1..], lo, hi);
      assert |rows| * lo == lo + (|rows| - 1) * lo;
      assert |rows| * hi == hi + (|rows| - 1) * hi;
    }
  }

  lemma AverageBetween(total: int, n: int, lo: int, hi: int)
    requires n > 0 && n * lo <= total <= n * hi
    ensures lo as real <= total as real / n as real <= hi as real
  {
    assert (n * lo) as real == n as real * lo as real;
    assert (n * hi) as real == n as real * hi as real;
  }

  // ------------------------------------------------------------ usage

  datatype UsageRow = UsageRow(id: int, title: string, price: int, requestCount: nat)
  datatype RecentRow = RecentRow(id: int, title: string, price: int, createdAt: int)

  function RequestCountKey(r: AdOne): int { r.requestCount as int }
  function CreatedAtKey(r: AdOne): int { r.createdAt }

  function UsageRows(rows: seq<AdOne>): (u: seq<UsageRow>)
    ensures |u| == |rows|
    ensures forall i :: 0 <= i < |u| ==> u[i] == UsageRow(rows[i].id, rows[i].title, rows[i].price, rows[i].requestCount)
  {
    seq(|rows|, i requires 0 <= i < |rows| => UsageRow(rows[i].id, rows[i].title, rows[i].price, rows[i].requestCount))
  }

  function RecentRows(rows: seq<AdOne>): (u: seq<RecentRow>)
    ensures |u| == |rows|
    ensures forall i :: 0 <= i < |u| ==> u[i] == RecentRow(rows[i].id, rows[i].title, rows[i].price, rows[i].createdAt)
  {
    seq(|rows|, i requires 0 <= i < |rows| => RecentRow(rows[i].id, rows[i].title, rows[i].price, rows[i].createdAt))
  }

  /** `orderBy: { Request: { _count: 'desc' } }, take: 10`: the ten most used
      add-ons, by `TopBy`'s contract. */
  function MostUsed(rows: seq<AdOne>): (u: seq<UsageRow>)
    ensures |u| == Min(10, |rows|)
    ensures forall i, j :: 0 <= i < j < |u| ==> u[i].requestCount >= u[j].requestCount
    ensures u == UsageRows(TopBy(rows, RequestCountKey, 10))
  {
    var top := TopBy(rows, RequestCountKey, 10);
    assert forall i :: 0 <= i < |top| ==> RequestCountKey(top[i]) == top[i].requestCount;
    UsageRows(top)
  }

  /** The selection behind `mostUsed`: taken from the table, and no add-on
      left out has more requests than any add-on listed. */
  lemma MostUsedAreTop(rows: seq<AdOne>)
    ensures var top := TopBy(rows, RequestCountKey, 10);
            && MostUsed(rows) == UsageRows(top)
            && multiset(top) <= multiset(rows)
            && forall r, i :: 0 <= i < |top| && multiset(top)[r] < multiset(rows)[r] ==>
                 r.requestCount <= top[i].requestCount
  {
    var top := TopBy(rows, RequestCountKey, 10);
    forall r, i | 0 <= i < |top| && multiset(top)[r] < multiset(rows)[r]
      ensures r.requestCount <= top[i].requestCount
    {
      assert RequestCountKey(r) <= RequestCountKey(top[i]);
    }
  }

  /** `orderBy: { createdAt: 'desc' }, take: 5`: the five newest add-ons. */
  function Recent(rows: seq<AdOne>): (u: seq<RecentRow>)
    ensures |u| == Min(5, |rows|)
    ensures forall i, j :: 0 <= i < j < |u| ==> u[i].createdAt >= u[j].createdAt
    ensures u == RecentRows(TopBy(rows, CreatedAtKey, 5))
  {
    var top := TopBy(rows, CreatedAtKey, 5);
    assert forall i :: 0 <= i < |top| ==> CreatedAtKey(top[i]) == top[i].createdAt;
    RecentRows(top)
  }

  /** The selection behind `recent`: taken from the table, and no add-on left
      out was created later than any add-on listed. */
  lemma RecentAreNewest(rows: seq<AdOne>)
    ensures var top := TopBy(rows, CreatedAtKey, 5);
            && Recent(rows) == RecentRows(top)
            && multiset(top) <= multiset(rows)
            && forall r, i :: 0 <= i < |top| && multiset(top)[r] < multiset(rows)[r] ==>
                 r.createdAt <= top[i].createdAt
  {
    var top := TopBy(rows, CreatedAtKey, 5);
    forall r, i | 0 <= i < |top| && multiset(top)[r] < multiset(rows)[r]
      ensures r.createdAt <= top[i].createdAt
    {
      assert CreatedAtKey(r) <= CreatedAtKey(top[i]);
    }
  }

  // ------------------------------------------------------------ distribution

  function Under50(r: AdOne): bool { r.price < 50 }
  function From50To100(r: AdOne): bool { 50 <= r.price < 100 }
  function From100To200(r: AdOne): bool { 100 <= r.price < 200 }
  function From200(r: AdOne): bool { 200 <= r.price }

  datatype PriceRanges = PriceRanges(under50: nat, between50And100: nat, between100And200: nat, over200: nat)

  function Distribution(rows: seq<AdOne>): PriceRanges {
    PriceRanges(Count(rows, Under50), Count(rows, From50To100), Count(rows, From100To200), Count(rows, From200))
  }

  /** The four buckets are disjoint and cover every price, so their counts add
      up to the number of add-ons. */
  lemma {:induction false} BucketsPartition(rows: seq<AdOne>)
    ensures var d := Distribution(rows);
            d.under50 + d.between50And100 + d.between100And200 + d.over200 == |rows|
  {
    if |rows| > 0 {
      BucketsPartition(rows[1..]);
    }
  }

  // ------------------------------------------------------------ the handler

  datatype Overview = Overview(totalAdOnes: nat, periodAdOnes: nat)

  datatype StatsBody = StatsBody(overview: Overview, revenue: Revenue, mostUsed: seq<UsageRow>,
                                 recent: seq<RecentRow>, priceRanges: PriceRanges, period: string)

  function Stats(rows: seq<AdOne>, period: Option<string>, now: int, monthStart: int, yearStart: int)
    : (resp: Response<StatsBody>)
    ensures resp.status == 200
    ensures resp.body.overview.totalAdOnes == |rows|
    ensures resp.body.overview.periodAdOnes <= resp.body.overview.totalAdOnes
    ensures resp.body.overview.periodAdOnes == PeriodCount(rows, PeriodName(period), now, monthStart, yearStart)
    ensures PeriodName(period) !in {"week", "month", "year"} ==>
              resp.body.overview.periodAdOnes == resp.body.overview.totalAdOnes
    ensures resp.body.period == PeriodName(period)
    ensures resp.body.revenue == RevenueOf(rows)
    ensures |resp.body.mostUsed| <= 10 && |resp.body.recent| <= 5
    ensures resp.body.mostUsed == MostUsed(rows) && resp.body.recent == Recent(rows)
    ensures var d := resp.body.priceRanges;
            d == Distribution(rows)
            && d.under50 + d.between50And100 + d.between100And200 + d.over200 == |rows|
  {
    BucketsPartition(rows);
    var name := PeriodName(period);
    Response(200, StatsBody(Overview(|rows|, PeriodCount(rows, name, now, monthStart, yearStart)),
                            RevenueOf(rows), MostUsed(rows), Recent(rows), Distribution(rows), name))
  }

  /** The period count is the number of add-ons created at or after the
      period's cutoff: 7 days (604800000 ms) before `now` for "week", the
      start of the month for "month" and the start of the year for "year". */
  lemma PeriodCutoffs(rows: seq<AdOne>, now: int, monthStart: int, yearStart: int)
    ensures PeriodCount(rows, "week", now, monthStart, yearStart) == Count(rows, CreatedSince(Some(now - 604800000)))
    ensures PeriodCount(rows, "month", now, monthStart, yearStart) == Count(rows, CreatedSince(Some(monthStart)))
    ensures PeriodCount(rows, "year", now, monthStart, yearStart) == Count(rows, CreatedSince(Some(yearStart)))
  {
    assert Cutoff("week", now, monthStart, yearStart) == Some(now - 604800000);
    assert Cutoff("month", now, monthStart, yearStart) == Some(monthStart);
    assert Cutoff("year", now, monthStart, yearStart) == Some(yearStart);
  }
}

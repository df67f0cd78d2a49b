/** The KPI figures of the store audit page: totals of revenue and orders, the rounded
    average order value, and the best and slowest months, all derived from the monthly
    records with `reduce`. */
module Audit {
  import opened ArrayOps

  /** One month of sales (`monthLabel` is the source's `label`, a reserved word here). The `discount` share is a fraction and is not modelled. */
  datatype MonthlyData = MonthlyData(monthLabel: string, revenue: int, orders: int)

  /** The twelve months shown on the page. */
  const Monthly24: seq<MonthlyData> := [
    MonthlyData("Aug 23", 780000, 350),
    MonthlyData("Sep 23", 810000, 365),
    MonthlyData("Oct 23", 910000, 402),
    MonthlyData("Nov 23", 1160000, 540),
    MonthlyData("Dec 23", 1240000, 565),
    MonthlyData("Jan 24", 690000, 310),
    MonthlyData("Feb 24", 740000, 330),
    MonthlyData("Mar 24", 890000, 385),
    MonthlyData("Apr 24", 960000, 420),
    MonthlyData("May 24", 990000, 435),
    MonthlyData("Jun 24", 920000, 392),
    MonthlyData("Jul 24", 900000, 388)
  ]

  function Revenue(m: MonthlyData): int { m.revenue }

  function Orders(m: MonthlyData): int { m.orders }

  /** `totalRevenue`: the revenue of every month added up, 0 for no months. */
  function TotalRevenue(ms: seq<MonthlyData>): (r: int)
    ensures r == SumOf(ms, Revenue)
    ensures ms == [] ==> r == 0
  {
    FoldSumIsSum(0, ms, Revenue);
    FoldSum(0, ms, Revenue)
  }

  /** `totalOrders`: the orders of every month added up, 0 for no months. */
  function TotalOrders(ms: seq<MonthlyData>): (r: int)
    ensures r == SumOf(ms, Orders)
    ensures ms == [] ==> r == 0
  {
    FoldSumIsSum(0, ms, Orders);
    FoldSum(0, ms, Orders)
  }

  /** A month appended at the end adds exactly its own revenue and orders to the totals. */
  lemma TotalsOfAppend(ms: seq<MonthlyData>, m: MonthlyData)
    ensures TotalRevenue(ms + [m]) == TotalRevenue(ms) + m.revenue
    ensures TotalOrders(ms + [m]) == TotalOrders(ms) + m.orders
  {
    SumOfAppend(ms, [m], Revenue);
    SumOfAppend(ms, [m], Orders);
  }

  /** `Math.round`: the nearest integer, halves rounded towards +infinity. */
  function MathRound(x: real): (n: int)
    ensures n as real - 0.5 <= x < n as real + 0.5
  {
    (x + 0.5).Floor
  }

  /** The integer `MathRound` picks is the only one within half a unit of `x`. */
  lemma MathRoundUnique(x: real, k: int)
    requires k as real - 0.5 <= x < k as real + 0.5
    ensures k == MathRound(x)
  {
    var n := MathRound(x);
    assert n as real - k as real < 1.0 && k as real - n as real < 1.0;
  }

  /** `avgAOV`: 0 when there are no orders, otherwise the revenue per order rounded
      to the nearest integer (halves up). */
  function AvgAOV(totalRevenue: int, totalOrders: int): (r: int)
    ensures totalOrders == 0 ==> r == 0
    ensures totalOrders != 0 ==>
      r as real - 0.5 <= totalRevenue as real / totalOrders as real < r as real + 0.5
  {
    if totalOrders != 0 then MathRound(totalRevenue as real / totalOrders as real) else 0
  }

  /** Dividing both sides of an inequality by a positive factor keeps it. */
  lemma CancelPositiveFactor(a: real, b: real, o: real)
    requires o > 0.0 && a * o <= b * o
    ensures a <= b
  {
  }

  /** For a positive order count the rounded average has an integer-only form. */
  lemma AvgAOVIntegerForm(totalRevenue: int, totalOrders: int)
    requires totalOrders > 0
    ensures AvgAOV(totalRevenue, totalOrders) == (2 * totalRevenue + totalOrders) / (2 * totalOrders)
  {
    var d := 2 * totalOrders;
    var q := (2 * totalRevenue + totalOrders) / d;
    var m := (2 * totalRevenue + totalOrders) % d;
    assert 2 * totalRevenue + totalOrders == d * q + m && 0 <= m < d;
    assert totalOrders * (2 * q - 1) <= 2 * totalRevenue;
    assert 2 * totalRevenue + 1 <= totalOrders * (2 * q + 1);
    var o := totalOrders as real;
    var x := totalRevenue as real / o;
    assert x * o == totalRevenue as real;
    assert (2 * q - 1) as real * o <= (2.0 * x) * o;
    CancelPositiveFactor((2 * q - 1) as real, 2.0 * x, o);
    assert (2.0 * x) * o + 1.0 <= (2 * q + 1) as real * o;
    CancelPositiveFactor(2.0 * x, (2 * q + 1) as real, o);
    MathRoundUnique(x, q);
  }

  /** The `reduce` callback of `bestMonth`: the earlier month is kept only when strictly better. */
  function MaxByRevenue(prev: MonthlyData, current: MonthlyData): MonthlyData {
    if prev.revenue > current.revenue then prev else current
  }

  /** The `reduce` callback of `slowMonth`: the earlier month is kept only when strictly worse. */
  function MinByRevenue(prev: MonthlyData, current: MonthlyData): MonthlyData {
    if prev.revenue < current.revenue then prev else current
  }

  /** `reduce` without a seed: the first month starts the fold and each later month is
      combined, left to right, with what has been reduced so far. */
  function ReduceMax(ms: seq<MonthlyData>): MonthlyData
    requires |ms| > 0
    decreases |ms|
  {
    if |ms| == 1 then ms[0] else MaxByRevenue(ReduceMax(ms[..|ms| - 1]), ms[|ms| - 1])
  }

  function ReduceMin(ms: seq<MonthlyData>): MonthlyData
    requires |ms| > 0
    decreases |ms|
  {
    if |ms| == 1 then ms[0] else MinByRevenue(ReduceMin(ms[..|ms| - 1]), ms[|ms| - 1])
  }

  /** Position `k` holds the highest revenue, and every later month has strictly less:
      the last of the months with the highest revenue. */
  ghost predicate IsLastMaximum(ms: seq<MonthlyData>, k: int) {
    && 0 <= k < |ms|
    && (forall j :: 0 <= j < |ms| ==> ms[j].revenue <= ms[k].revenue)
    && (forall j :: k < j < |ms| ==> ms[j].revenue < ms[k].revenue)
  }

  /** Position `k` holds the lowest revenue, and every later month has strictly more. */
  ghost predicate IsLastMinimum(ms: seq<MonthlyData>, k: int) {
    && 0 <= k < |ms|
    && (forall j :: 0 <= j < |ms| ==> ms[k].revenue <= ms[j].revenue)
    && (forall j :: k < j < |ms| ==> ms[k].revenue < ms[j].revenue)
  }

  /** Only one position can be the last maximum. */
  lemma LastMaximumUnique(ms: seq<MonthlyData>, k1: int, k2: int)
    requires IsLastMaximum(ms, k1) && IsLastMaximum(ms, k2)
    ensures k1 == k2
  {
    assert ms[k1].revenue == ms[k2].revenue;
  }

  /** Only one position can be the last minimum. */
  lemma LastMinimumUnique(ms: seq<MonthlyData>, k1: int, k2: int)
    requires IsLastMinimum(ms, k1) && IsLastMinimum(ms, k2)
    ensures k1 == k2
  {
    assert ms[k1].revenue == ms[k2].revenue;
  }

  /** Folding `MaxByRevenue` from the left ends on the last maximum. */
  lemma {:induction false} ReduceMaxIsLastMaximum(ms: seq<MonthlyData>)
    requires |ms| > 0
    ensures exists k :: IsLastMaximum(ms, k) && ReduceMax(ms) == ms[k]
    decreases |ms|
  {
    if |ms| == 1 {
      assert IsLastMaximum(ms, 0);
    } else {
      var n := |ms| - 1;
      ReduceMaxIsLastMaximum(ms[..n]);
      var k' :| IsLastMaximum(ms[..n], k') && ReduceMax(ms[..n]) == ms[..n][k'];
      ExtendLastMaximum(ms, k');
      if ms[k'].revenue > ms[n].revenue {
        assert ReduceMax(ms) == ms[k'];
      } else {
        assert ReduceMax(ms) == ms[n];
      }
    }
  }

  /** Appending a month to a list whose last maximum is at `k`: the maximum stays at `k` when
      the new month earns strictly less, and moves to the new month otherwise. */
  lemma ExtendLastMaximum(ms: seq<MonthlyData>, k: int)
    requires |ms| > 1 && IsLastMaximum(ms[..|ms| - 1], k)
    ensures ms[k].revenue > ms[|ms| - 1].revenue ==> IsLastMaximum(ms, k)
    ensures ms[k].revenue <= ms[|ms| - 1].revenue ==> IsLastMaximum(ms, |ms| - 1)
  {
    var n := |ms| - 1;
    var p := ms[..n];
    forall j | 0 <= j < n
      ensures ms[j].revenue <= ms[k].revenue
    {
      assert ms[j] == p[j];
    }
    forall j | k < j < n
      ensures ms[j].revenue < ms[k].revenue
    {
      assert ms[j] == p[j];
    }
  }

  /** Folding `MinByRevenue` from the left ends on the last minimum. */
  lemma {:induction false} ReduceMinIsLastMinimum(ms: seq<MonthlyData>)
    requires |ms| > 0
    ensures exists k :: IsLastMinimum(ms, k) && ReduceMin(ms) == ms[k]
    decreases |ms|
  {
    if |ms| == 1 {
      assert IsLastMinimum(ms, 0);
    } else {
      var n := |ms| - 1;
      ReduceMinIsLastMinimum(ms[..n]);
      var k' :| IsLastMinimum(ms[..n], k') && ReduceMin(ms[..n]) == ms[..n][k'];
      ExtendLastMinimum(ms, k');
      if ms[k'].revenue < ms[n].revenue {
        assert ReduceMin(ms) == ms[k'];
      } else {
        assert ReduceMin(ms) == ms[n];
      }
    }
  }

  /** Appending a month to a list whose last minimum is at `k`: the minimum stays at `k` when
      the new month earns strictly more, and moves to the new month otherwise. */
  lemma ExtendLastMinimum(ms: seq<MonthlyData>, k: int)
    requires |ms| > 1 && IsLastMinimum(ms[..|ms| - 1], k)
    ensures ms[k].revenue < ms[|ms| - 1].revenue ==> IsLastMinimum(ms, k)
    ensures ms[k].revenue >= ms[|ms| - 1].revenue ==> IsLastMinimum(ms, |ms| - 1)
  {
    var n := |ms| - 1;
    var p := ms[..n];
    forall j | 0 <= j < n
      ensures ms[k].revenue <= ms[j].revenue
    {
      assert ms[j] == p[j];
    }
    forall j | k < j < n
      ensures ms[k].revenue < ms[j].revenue
    {
      assert ms[j] == p[j];
    }
  }

  /** `bestMonth`: a month with the highest revenue; among equals the latest one.
      `reduce` without a seed throws on an empty array, hence the precondition. */
  function BestMonth(ms: seq<MonthlyData>): (r: MonthlyData)
    requires |ms| > 0
    ensures exists k :: IsLastMaximum(ms, k) && r == ms[k]
  {
    ReduceMaxIsLastMaximum(ms);
    ReduceMax(ms)
  }

  /** `slowMonth`: a month with the lowest revenue; among equals the latest one. */
  function SlowMonth(ms: seq<MonthlyData>): (r: MonthlyData)
    requires |ms| > 0
    ensures exists k :: IsLastMinimum(ms, k) && r == ms[k]
  {
    ReduceMinIsLastMinimum(ms);
    ReduceMin(ms)
  }

  /** The best month is a member of the list and earns at least as much as any month. */
  lemma BestMonthIsMaximum(ms: seq<MonthlyData>)
    requires |ms| > 0
    ensures BestMonth(ms) in ms
    ensures forall m :: m in ms ==> m.revenue <= BestMonth(ms).revenue
  {
    var r := BestMonth(ms);
    var k :| IsLastMaximum(ms, k) && r == ms[k];
    assert forall j :: 0 <= j < |ms| ==> ms[j].revenue <= r.revenue;
  }

  /** The slowest month is a member of the list and earns no more than any month. */
  lemma SlowMonthIsMinimum(ms: seq<MonthlyData>)
    requires |ms| > 0
    ensures SlowMonth(ms) in ms
    ensures forall m :: m in ms ==> SlowMonth(ms).revenue <= m.revenue
  {
    var r := SlowMonth(ms);
    var k :| IsLastMinimum(ms, k) && r == ms[k];
    assert forall j :: 0 <= j < |ms| ==> r.revenue <= ms[j].revenue;
  }

  /** The best month never earns less than the slowest one. */
  lemma BestAtLeastSlow(ms: seq<MonthlyData>)
    requires |ms| > 0
    ensures SlowMonth(ms).revenue <= BestMonth(ms).revenue
  {
    BestMonthIsMaximum(ms);
    SlowMonthIsMinimum(ms);
  }

  /** On two months with equal revenue both reductions pick the later one. */
  lemma TieGoesToLaterMonth(a: MonthlyData, b: MonthlyData)
    requires a.revenue == b.revenue
    ensures BestMonth([a, b]) == b && SlowMonth([a, b]) == b
  {
    var best, slow := BestMonth([a, b]), SlowMonth([a, b]);
    var k :| IsLastMaximum([a, b], k) && best == [a, b][k];
    var k2 :| IsLastMinimum([a, b], k2) && slow == [a, b][k2];
  }

  /** The totals and the average order value the page shows for its twelve months. */
  lemma Monthly24Totals()
    ensures TotalRevenue(Monthly24) == 10990000
    ensures TotalOrders(Monthly24) == 4882
    ensures AvgAOV(TotalRevenue(Monthly24), TotalOrders(Monthly24)) == 2251
  {
    Monthly24Revenue();
    Monthly24Orders();
    AvgAOVIntegerForm(10990000, 4882);
  }

  /** The revenue of the twelve months adds up to 10990000. */
  lemma Monthly24Revenue()
    ensures TotalRevenue(Monthly24) == 10990000
  {
  }

  /** The orders of the twelve months add up to 4882. */
  lemma Monthly24Orders()
    ensures TotalOrders(Monthly24) == 4882
  {
  }

  /** `bestMonth` is determined: it is the month at the last position of highest revenue. */
  lemma BestMonthAt(ms: seq<MonthlyData>, k: int)
    requires IsLastMaximum(ms, k)
    ensures BestMonth(ms) == ms[k]
  {
    var best := BestMonth(ms);
    var k' :| IsLastMaximum(ms, k') && best == ms[k'];
    LastMaximumUnique(ms, k, k');
  }

  /** `slowMonth` is determined: it is the month at the last position of lowest revenue. */
  lemma SlowMonthAt(ms: seq<MonthlyData>, k: int)
    requires IsLastMinimum(ms, k)
    ensures SlowMonth(ms) == ms[k]
  {
    var slow := SlowMonth(ms);
    var k' :| IsLastMinimum(ms, k') && slow == ms[k'];
    LastMinimumUnique(ms, k, k');
  }

  /** The best month of the twelve is December 2023. */
  lemma Monthly24Best()
    ensures BestMonth(Monthly24).monthLabel == "Dec 23"
  {
    assert IsLastMaximum(Monthly24, 4);
    BestMonthAt(Monthly24, 4);
  }

  /** The slowest month of the twelve is January 2024. */
  lemma Monthly24Slowest()
    ensures SlowMonth(Monthly24).monthLabel == "Jan 24"
  {
    assert IsLastMinimum(Monthly24, 5);
    SlowMonthAt(Monthly24, 5);
  }
}

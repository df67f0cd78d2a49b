/** The financial dashboard: the revenue-growth bars with their month-over-month direction and
    growth indicator, the cost breakdown and its total, and the churn-risk badge colours. */
module FinancialDashboard {
  import opened Options
  import opened ArrayOps

  /** A bar of the revenue-growth chart; `change` is the percentage shown under it, or null. */
  datatype RevenuePoint = RevenuePoint(month: string, value: int, change: Option<real>)

  /** A row of the cost breakdown. */
  datatype CostItem = CostItem(category: string, value: int, percentage: real, color: string)

  datatype RiskLevel = High | Medium | Low

  /** A brand at risk of churn. */
  datatype ChurnBrand = ChurnBrand(name: string, riskLevel: string, reason: string)

  const RevenueGrowthData: seq<RevenuePoint> := [
    RevenuePoint("Jan", 3800, None),
    RevenuePoint("Feb", 4200, Some(10.5)),
    RevenuePoint("Mar", 4650, Some(10.7)),
    RevenuePoint("Apr", 4850, Some(4.3)),
    RevenuePoint("May", 5014, Some(3.4))
  ]

  const CostBreakdown: seq<CostItem> := [
    CostItem("AI Costs", 248, 58.5, "bg-primary"),
    CostItem("Data Costs", 175, 41.5, "bg-blue-500")
  ]

  const ChurnBrands: seq<ChurnBrand> := [
    ChurnBrand("Vitron", "high", "Low activity & agent usage"),
    ChurnBrand("Dermacy", "medium", "Decreased query volume"),
    ChurnBrand("Elio", "medium", "Support tickets increase")
  ]

  function CostValue(c: CostItem): int { c.value }

  /** "Total Monthly Costs": `costBreakdown.reduce((sum, cost) => sum + cost.value, 0)`. */
  function TotalMonthlyCosts(costs: seq<CostItem>): (r: int)
    ensures r == SumOf(costs, CostValue)
    ensures costs == [] ==> r == 0
  {
    FoldSumIsSum(0, costs, CostValue);
    FoldSum(0, costs, CostValue)
  }

  lemma CostBreakdownTotal()
    ensures TotalMonthlyCosts(CostBreakdown) == 423
  {
    assert SumOf(CostBreakdown[1..], CostValue) == 175;
  }

  /** A bar's direction: it compares its value with the previous bar's, and the first bar with
      itself, so the first bar is never positive and equal values are not positive either. */
  function IsPositive(points: seq<RevenuePoint>, index: nat): (r: bool)
    requires index < |points|
    ensures index == 0 ==> !r
    ensures index > 0 ==> (r <==> points[index - 1].value < points[index].value)
  {
    var prevValue := if index > 0 then points[index - 1].value else points[index].value;
    points[index].value > prevValue
  }

  /** The growth indicator is rendered when `change` is truthy: neither null nor zero. */
  predicate ShowsIndicator(p: RevenuePoint) {
    p.change.Some? && p.change.value != 0.0
  }

  /** The indicator's colour class, when it is shown: green for a rise, red otherwise. */
  function IndicatorClass(points: seq<RevenuePoint>, index: nat): (r: Option<string>)
    requires index < |points|
    ensures r.Some? <==> ShowsIndicator(points[index])
    ensures r.Some? ==> (r.value == "text-green-600" <==> IsPositive(points, index))
    ensures r.Some? ==> (r.value == "text-red-600" <==> !IsPositive(points, index))
  {
    if ShowsIndicator(points[index]) then
      Some(if IsPositive(points, index) then "text-green-600" else "text-red-600")
    else
      None
  }

  /** Every bar after the first is positive exactly when the values strictly increase. */
  lemma AllPositiveIffIncreasing(points: seq<RevenuePoint>)
    ensures (forall k :: 0 < k < |points| ==> IsPositive(points, k))
        <==> (forall i, j :: 0 <= i < j < |points| ==> points[i].value < points[j].value)
  {
    if forall k :: 0 < k < |points| ==> IsPositive(points, k) {
      forall i, j | 0 <= i < j < |points|
        ensures points[i].value < points[j].value
      {
        PositiveRun(points, i, j);
      }
    }
  }

  lemma {:induction false} PositiveRun(points: seq<RevenuePoint>, i: nat, j: nat)
    requires i < j < |points|
    requires forall k :: 0 < k < |points| ==> IsPositive(points, k)
    ensures points[i].value < points[j].value
    decreases j - i
  {
    assert IsPositive(points, j);
    if i + 1 < j {
      PositiveRun(points, i, j - 1);
    }
  }

  /** The chart's own data: the first bar is flat with no indicator, every later bar rises
      and shows a green indicator. */
  lemma RevenueGrowthBars()
    ensures !IsPositive(RevenueGrowthData, 0) && IndicatorClass(RevenueGrowthData, 0) == None
    ensures forall k :: 0 < k < |RevenueGrowthData| ==>
      IndicatorClass(RevenueGrowthData, k) == Some("text-green-600")
  {
    var d := RevenueGrowthData;
    forall k | 0 < k < |d|
      ensures IndicatorClass(d, k) == Some("text-green-600")
    {
      assert d[k - 1].value < d[k].value;
      assert ShowsIndicator(d[k]);
    }
  }

  function ParseRiskLevel(level: string): (r: Option<RiskLevel>)
    ensures r.Some? <==> level in {"high", "medium", "low"}
  {
    match level
    case "high" => Some(High)
    case "medium" => Some(Medium)
    case "low" => Some(Low)
    case _ => None
  }

  /** `getRiskLevelColor`: red, yellow and green for the three levels, grey for anything else. */
  function RiskLevelColor(level: string): (r: string)
    ensures r == "text-gray-600 bg-gray-50" <==> ParseRiskLevel(level).None?
    ensures ParseRiskLevel(level) == Some(High) ==> r == "text-red-600 bg-red-50"
    ensures ParseRiskLevel(level) == Some(Medium) ==> r == "text-yellow-600 bg-yellow-50"
    ensures ParseRiskLevel(level) == Some(Low) ==> r == "text-green-600 bg-green-50"
  {
    match level
    case "high" => "text-red-600 bg-red-50"
    case "medium" => "text-yellow-600 bg-yellow-50"
    case "low" => "text-green-600 bg-green-50"
    case _ => "text-gray-600 bg-gray-50"
  }

  /** Different levels get different colours, so the badge tells the levels apart. */
  lemma RiskLevelColorInjective(a: string, b: string)
    requires ParseRiskLevel(a).Some? && ParseRiskLevel(b).Some?
    requires RiskLevelColor(a) == RiskLevelColor(b)
    ensures a == b
  {
  }

  /** No brand of the churn list falls back to grey. */
  lemma ChurnBrandsColoured()
    ensures forall b :: b in ChurnBrands ==> RiskLevelColor(b.riskLevel) != "text-gray-600 bg-gray-50"
  {
  }
}

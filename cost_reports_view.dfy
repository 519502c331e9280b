/** The cost-reports screen: summary totals, the average margin, the bar
    chart's first ten points and the negative-margin warning, all computed
    in the browser from the server's cost report rows. */
module CostReportsView {
  import opened Domain
  import opened Reports

  // ---------------------------------------------------------------------
  // Summary cards

  function TotalRevenue(reports: seq<CostReport>): (r: real)
    ensures (forall k :: 0 <= k < |reports| ==> reports[k].revenue >= 0.0) ==> r >= 0.0
  {
    if reports == [] then 0.0
    else TotalRevenue(reports[..|reports| - 1]) + reports[|reports| - 1].revenue
  }

  function TotalCost(reports: seq<CostReport>): (r: real)
    ensures (forall k :: 0 <= k < |reports| ==> reports[k].materialCost >= 0.0) ==> r >= 0.0
  {
    if reports == [] then 0.0
    else TotalCost(reports[..|reports| - 1]) + reports[|reports| - 1].materialCost
  }

  /** The profit card: total revenue less total cost (the rows' own profit
      fields are not read). */
  function TotalProfit(reports: seq<CostReport>): real
  {
    TotalRevenue(reports) - TotalCost(reports)
  }

  /** Sum of the rows' profit fields. */
  function SumProfit(reports: seq<CostReport>): real
  {
    if reports == [] then 0.0
    else SumProfit(reports[..|reports| - 1]) + reports[|reports| - 1].profit
  }

  function SumMargins(reports: seq<CostReport>): real
  {
    if reports == [] then 0.0
    else SumMargins(reports[..|reports| - 1]) + reports[|reports| - 1].marginPercent
  }

  /** Mean of the margin percentages; 0 without rows. */
  function AvgMargin(reports: seq<CostReport>): (avg: real)
    ensures |reports| == 0 ==> avg == 0.0
    ensures |reports| > 0 ==> avg * |reports| as real == SumMargins(reports)
  {
    if |reports| > 0 then SumMargins(reports) / |reports| as real else 0.0
  }

  // ---------------------------------------------------------------------
  // Summary properties

  /** On rows whose profit is revenue less cost (every row the server
      produces), the profit card equals the sum of the rows' profits. */
  lemma {:induction false} TotalProfitIsSumOfProfits(reports: seq<CostReport>)
    requires forall rep :: rep in reports ==> rep.profit == rep.revenue - rep.materialCost
    ensures TotalProfit(reports) == SumProfit(reports)
  {
    if reports != [] {
      var n := |reports| - 1;
      assert reports[n] in reports;
      assert forall rep :: rep in reports[..n] ==> rep in reports;
      TotalProfitIsSumOfProfits(reports[..n]);
    }
  }

  /** The server's rows satisfy the profit identity, so the card agrees with
      them. */
  lemma ServerTotalProfit(orders: seq<ProductionOrder>, usages: seq<MaterialUsage>, products: seq<Product>)
    ensures TotalProfit(CostReports(orders, usages, products)) == SumProfit(CostReports(orders, usages, products))
  {
    var r := CostReports(orders, usages, products);
    forall rep | rep in r
      ensures rep.profit == rep.revenue - rep.materialCost
    {
      var k :| 0 <= k < |r| && r[k] == rep;
      ReportArithmetic(CompletedOrders(orders)[k], usages, products);
    }
    TotalProfitIsSumOfProfits(r);
  }

  /** With every margin between lo and hi, so is their sum scaled down by
      the row count. */
  lemma {:induction false} SumMarginsBounds(reports: seq<CostReport>, lo: real, hi: real)
    requires forall k :: 0 <= k < |reports| ==> lo <= reports[k].marginPercent <= hi
    ensures |reports| as real * lo <= SumMargins(reports) <= |reports| as real * hi
  {
    if reports != [] {
      var n := |reports| - 1;
      SumMarginsBounds(reports[..n], lo, hi);
      AddOneFactor(n as real, lo);
      AddOneFactor(n as real, hi);
    }
  }

  lemma AddOneFactor(n: real, c: real)
    ensures (n + 1.0) * c == n * c + c
  {
  }

  /** The average margin lies between the smallest and the largest margin. */
  lemma AvgMarginBetween(reports: seq<CostReport>, lo: real, hi: real)
    requires reports != []
    requires forall rep :: rep in reports ==> lo <= rep.marginPercent <= hi
    ensures lo <= AvgMargin(reports) <= hi
  {
    SumMarginsBounds(reports, lo, hi);
    var n := |reports| as real;
    var avg := AvgMargin(reports);
    assert (avg - lo) * n >= 0.0;
    assert (hi - avg) * n >= 0.0;
    PositiveFactor(avg - lo, n);
    PositiveFactor(hi - avg, n);
  }

  lemma PositiveFactor(x: real, n: real)
    requires n > 0.0 && x * n >= 0.0
    ensures x >= 0.0
  {
  }

  // ---------------------------------------------------------------------
  // Chart

  datatype ChartPoint = ChartPoint(name: string, cost: real, price: real, margin: real)

  const CHART_POINTS: nat := 10
  const NAME_CHARS: nat := 10

  /** The chart label: the first ten characters of the product name and
      "...", or "undefined..." when the row has no product name. */
  function ChartName(productName: Option<string>): (r: string)
    ensures |r| >= 3 && r[|r| - 3..] == "..."
    ensures productName.Some? ==>
      |r| == Min(NAME_CHARS, |productName.value|) + 3 && r[..|r| - 3] <= productName.value
    ensures productName.None? ==> r == "undefined..."
  {
    match productName
    case Some(name) => name[..Min(NAME_CHARS, |name|)] + "..."
    case None => "undefined..."
  }

  function ChartPointOf(rep: CostReport): ChartPoint
  {
    ChartPoint(ChartName(rep.productName), rep.costPerUnit, rep.sellingPrice, rep.marginPercent)
  }

  /** One chart point for each of the first ten rows, in row order: the
      label, cost per unit, price and margin of that row. */
  function ChartData(reports: seq<CostReport>): (r: seq<ChartPoint>)
    ensures |r| == Min(CHART_POINTS, |reports|) <= CHART_POINTS
    ensures forall k :: 0 <= k < |r| ==>
      && r[k].name == ChartName(reports[k].productName)
      && r[k].cost == reports[k].costPerUnit
      && r[k].price == reports[k].sellingPrice
      && r[k].margin == reports[k].marginPercent
  {
    var n := Min(CHART_POINTS, |reports|);
    seq(n, k requires 0 <= k < n => ChartPointOf(reports[k]))
  }

  /** Rows after the tenth never reach the chart. */
  lemma ChartIgnoresLaterRows(reports: seq<CostReport>, more: seq<CostReport>)
    ensures |reports| >= CHART_POINTS ==> ChartData(reports + more) == ChartData(reports)
  {
    if |reports| >= CHART_POINTS {
      var a, b := ChartData(reports + more), ChartData(reports);
      assert |a| == |b|;
      forall k | 0 <= k < |a|
        ensures a[k] == b[k]
      {
        assert (reports + more)[k] == reports[k];
      }
    }
  }

  // ---------------------------------------------------------------------
  // Negative-margin warning

  /** The rows listed under the warning, in row order. */
  function NegativeMargins(reports: seq<CostReport>): (r: seq<CostReport>)
    ensures forall rep :: rep in r <==> rep in reports && rep.marginPercent < 0.0
    ensures |r| <= |reports|
  {
    if reports == [] then []
    else
      var n := |reports| - 1;
      NegativeMargins(reports[..n]) + (if reports[n].marginPercent < 0.0 then [reports[n]] else [])
  }

  /** The warning keeps the rows' order and multiplicity: the filter
      distributes over concatenation. */
  lemma {:induction false} NegativeMarginsKeepsOrder(a: seq<CostReport>, b: seq<CostReport>)
    ensures NegativeMargins(a + b) == NegativeMargins(a) + NegativeMargins(b)
    decreases |b|
  {
    if b == [] {
      assert a + b == a;
    } else {
      var n := |b| - 1;
      assert (a + b)[..|a + b| - 1] == a + b[..n];
      NegativeMarginsKeepsOrder(a, b[..n]);
    }
  }

  /** A single row is listed exactly when its margin is negative. */
  lemma NegativeMarginsOne(rep: CostReport)
    ensures NegativeMargins([rep]) == if rep.marginPercent < 0.0 then [rep] else []
  {
    assert [rep][..0] == [];
  }

  /** The warning box appears when some row has a negative margin. */
  predicate ShowNegativeAlert(reports: seq<CostReport>)
  {
    exists rep :: rep in reports && rep.marginPercent < 0.0
  }

  /** The box is shown exactly when its list is not empty. */
  lemma AlertIffListed(reports: seq<CostReport>)
    ensures ShowNegativeAlert(reports) <==> NegativeMargins(reports) != []
  {
    if NegativeMargins(reports) != [] {
      assert NegativeMargins(reports)[0] in NegativeMargins(reports);
    }
  }

  /** Over the server's rows, an order is listed under the warning exactly
      when it earned something and its materials cost more than that. */
  lemma ServerNegativeMargins(orders: seq<ProductionOrder>, usages: seq<MaterialUsage>,
                              products: seq<Product>, rep: CostReport)
    requires rep in CostReports(orders, usages, products)
    ensures rep in NegativeMargins(CostReports(orders, usages, products))
      <==> rep.revenue > 0.0 && rep.materialCost > rep.revenue
  {
    var r := CostReports(orders, usages, products);
    var k :| 0 <= k < |r| && r[k] == rep;
    NegativeMarginIff(CompletedOrders(orders)[k], usages, products);
  }
}

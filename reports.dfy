/** The two read-only reports of the server: the dashboard (today's output,
    low stock, production and downtime cost, recent orders) and the per-order
    cost and margin report over completed orders. Both are recomputed from
    the store on every request. */
module Reports {
  import opened Domain
  import opened Ledger
  import Downtime

  const MS_PER_DAY: int := 24 * 60 * 60 * 1000
  /** Downtime cost rate of the dashboard, in money per hour. */
  const DOWNTIME_COST_RATE: real := 100.0
  /** How many orders the dashboard lists. */
  const RECENT_COUNT: nat := 5

  // ---------------------------------------------------------------------
  // Dashboard pieces

  /** The order ended on the given UTC day (the end timestamp's date part
      is today's date). */
  predicate EndedOn(o: ProductionOrder, today: int)
  {
    o.actualEnd.Some? && o.actualEnd.value / MS_PER_DAY == today
  }

  function TodayOrders(orders: seq<ProductionOrder>, today: int): (r: seq<ProductionOrder>)
    ensures forall o :: o in r <==> o in orders && EndedOn(o, today)
    ensures |r| <= |orders|
  {
    if orders == [] then []
    else
      var n := |orders| - 1;
      TodayOrders(orders[..n], today) + (if EndedOn(orders[n], today) then [orders[n]] else [])
  }

  /** Sum of the produced quantities. */
  function SumProduced(orders: seq<ProductionOrder>): (r: real)
    ensures (forall k :: 0 <= k < |orders| ==> orders[k].actualProducedQty >= 0.0) ==> r >= 0.0
  {
    if orders == [] then 0.0
    else SumProduced(orders[..|orders| - 1]) + orders[|orders| - 1].actualProducedQty
  }

  function CompletedOrders(orders: seq<ProductionOrder>): (r: seq<ProductionOrder>)
    ensures forall o :: o in r <==> o in orders && o.status == Completed
    ensures |r| <= |orders|
  {
    if orders == [] then []
    else
      var n := |orders| - 1;
      CompletedOrders(orders[..n]) + (if orders[n].status == Completed then [orders[n]] else [])
  }

  /** Raw materials whose stock (0 without ledger rows) is at or below their
      reorder point, in store order. */
  function LowStockMaterials(materials: seq<RawMaterial>, levels: map<Id, StockLevel>): (r: seq<RawMaterial>)
    ensures |r| <= |materials|
  {
    if materials == [] then []
    else
      var n := |materials| - 1;
      LowStockMaterials(materials[..n], levels)
        + (if StockOrZero(levels, materials[n].id) <= materials[n].reorderPoint then [materials[n]] else [])
  }

  /** The low materials are exactly the listed materials whose stock (0
      without ledger rows) is at or below their reorder point. */
  lemma {:induction false} LowStockMaterialsSpec(materials: seq<RawMaterial>, levels: map<Id, StockLevel>)
    ensures forall m :: m in LowStockMaterials(materials, levels) <==>
      m in materials && StockOrZero(levels, m.id) <= m.reorderPoint
  {
    if materials != [] {
      var n := |materials| - 1;
      LowStockMaterialsSpec(materials[..n], levels);
      assert materials == materials[..n] + [materials[n]];
    }
  }

  /** Reference definition of the dashboard's low-stock list, read straight
      off the ledger: the raw materials, in store order, whose summed ledger
      quantity is at or below their reorder point. */
  function LowByLedger(materials: seq<RawMaterial>, txs: seq<Transaction>): seq<RawMaterial>
  {
    if materials == [] then []
    else
      var n := |materials| - 1;
      LowByLedger(materials[..n], txs)
        + (if QtyOf(txs, materials[n].id) <= materials[n].reorderPoint then [materials[n]] else [])
  }

  /** Over levels produced by the stock fold, the low-stock filter is the
      ledger's: the same materials, in the same order and multiplicity. */
  lemma {:induction false} LowStockMaterialsByLedger(materials: seq<RawMaterial>, txs: seq<Transaction>,
                                                     levels: map<Id, StockLevel>)
    requires forall x :: x in levels <==> CountOf(txs, x) > 0
    requires forall x :: x in levels ==> levels[x].qty == QtyOf(txs, x)
    ensures LowStockMaterials(materials, levels) == LowByLedger(materials, txs)
  {
    if materials != [] {
      var n := |materials| - 1;
      LowStockMaterialsByLedger(materials[..n], txs, levels);
      StockOrZeroIsQty(txs, levels, materials[n].id);
    }
  }

  /** A low material together with its current stock. */
  datatype StockAlert = StockAlert(material: RawMaterial, currentStock: real)

  function StockAlerts(materials: seq<RawMaterial>, levels: map<Id, StockLevel>): (r: seq<StockAlert>)
    ensures |r| == |LowStockMaterials(materials, levels)|
    ensures forall k :: 0 <= k < |r| ==>
      r[k] == StockAlert(LowStockMaterials(materials, levels)[k],
                         StockOrZero(levels, LowStockMaterials(materials, levels)[k].id))
  {
    var low := LowStockMaterials(materials, levels);
    seq(|low|, k requires 0 <= k < |low| => StockAlert(low[k], StockOrZero(levels, low[k].id)))
  }

  /** The low-stock filter keeps store order and multiplicity: it
      distributes over concatenation, and one material passes exactly when
      it is low. */
  lemma {:induction false} LowStockMaterialsKeepsOrder(a: seq<RawMaterial>, b: seq<RawMaterial>,
                                                       levels: map<Id, StockLevel>)
    ensures LowStockMaterials(a + b, levels) == LowStockMaterials(a, levels) + LowStockMaterials(b, levels)
    decreases |b|
  {
    if b == [] {
      assert a + b == a;
    } else {
      var n := |b| - 1;
      assert a + b == (a + b[..n]) + [b[n]];
      assert b == b[..n] + [b[n]];
      LowStockMaterialsSnoc(a + b[..n], b[n], levels);
      LowStockMaterialsSnoc(b[..n], b[n], levels);
      LowStockMaterialsKeepsOrder(a, b[..n], levels);
    }
  }

  lemma LowStockMaterialsSnoc(s: seq<RawMaterial>, m: RawMaterial, levels: map<Id, StockLevel>)
    ensures LowStockMaterials(s + [m], levels)
         == LowStockMaterials(s, levels) + if StockOrZero(levels, m.id) <= m.reorderPoint then [m] else []
  {
    assert (s + [m])[..|s|] == s;
  }

  /** A single material passes the low-stock filter exactly when it is low. */
  lemma LowStockMaterialsOne(m: RawMaterial, levels: map<Id, StockLevel>)
    ensures LowStockMaterials([m], levels) == if StockOrZero(levels, m.id) <= m.reorderPoint then [m] else []
  {
    assert [m][..0] == [];
  }

  /** Materials with distinct ids give stock alerts for distinct
      materials: one alert per low material. */
  lemma {:induction false} LowStockMaterialsDistinct(materials: seq<RawMaterial>, levels: map<Id, StockLevel>)
    requires forall i, j :: 0 <= i < j < |materials| ==> materials[i].id != materials[j].id
    ensures forall i, j :: 0 <= i < j < |LowStockMaterials(materials, levels)| ==>
      LowStockMaterials(materials, levels)[i].id != LowStockMaterials(materials, levels)[j].id
    ensures var alerts := StockAlerts(materials, levels);
      forall i, j :: 0 <= i < j < |alerts| ==> alerts[i].material.id != alerts[j].material.id
  {
    if materials != [] {
      var n := |materials| - 1;
      LowStockMaterialsDistinct(materials[..n], levels);
      LowStockMaterialsSpec(materials[..n], levels);
      var prev := LowStockMaterials(materials[..n], levels);
      forall x | x in prev
        ensures x.id != materials[n].id
      {
        var i :| 0 <= i < n && materials[..n][i] == x;
        assert materials[i] == x;
      }
      var low := LowStockMaterials(materials, levels);
      assert low == prev + (if StockOrZero(levels, materials[n].id) <= materials[n].reorderPoint then [materials[n]] else []);
      forall i, j | 0 <= i < j < |low|
        ensures low[i].id != low[j].id
      {
        if j < |prev| {
          assert low[i] == prev[i] && low[j] == prev[j];
        } else {
          assert low[j] == materials[n];
          var x := prev[i];
          assert x in prev && low[i] == x;
          assert x.id != materials[n].id;
        }
      }
    }
  }

  /** Sum of quantity used times unit cost over usage rows. */
  function ProductionCost(usages: seq<MaterialUsage>): (r: real)
    ensures (forall k :: 0 <= k < |usages| ==> usages[k].qtyUsed >= 0.0 && usages[k].unitCost >= 0.0) ==> r >= 0.0
  {
    if usages == [] then 0.0
    else
      var u := usages[|usages| - 1];
      ProductionCost(usages[..|usages| - 1]) + u.qtyUsed * u.unitCost
  }

  /** Contribution of one downtime event: its hours times the rate, and
      nothing when its start or end time is missing. */
  function EventCost(e: DowntimeEvent): (r: real)
    ensures e.startTime.None? || e.endTime.None? ==> r == 0.0
    ensures e.startTime.Some? && e.endTime.Some? ==> (r < 0.0 <==> e.endTime.value < e.startTime.value)
  {
    if e.startTime.Some? && e.endTime.Some? then
      var hours := (e.endTime.value - e.startTime.value) as real / (1000 * 60 * 60) as real;
      hours * DOWNTIME_COST_RATE
    else 0.0
  }

  function DowntimeCost(events: seq<DowntimeEvent>): (r: real)
    ensures (forall k :: 0 <= k < |events| && events[k].startTime.Some? && events[k].endTime.Some? ==>
               events[k].startTime.value <= events[k].endTime.value) ==> r >= 0.0
  {
    if events == [] then 0.0
    else DowntimeCost(events[..|events| - 1]) + EventCost(events[|events| - 1])
  }

  /** The sequence back to front. */
  function Reverse<T>(s: seq<T>): (r: seq<T>)
    ensures |r| == |s|
    ensures forall k :: 0 <= k < |s| ==> r[k] == s[|s| - 1 - k]
  {
    if s == [] then [] else [s[|s| - 1]] + Reverse(s[..|s| - 1])
  }

  function Min(a: nat, b: nat): nat
  {
    if a <= b then a else b
  }

  /** The last five orders in store order (all of them when there are
      fewer), newest first. */
  function RecentOrders(orders: seq<ProductionOrder>): (r: seq<ProductionOrder>)
    ensures |r| == Min(RECENT_COUNT, |orders|)
    ensures forall k :: 0 <= k < |r| ==> r[k] == orders[|orders| - 1 - k]
  {
    var n := |orders|;
    Reverse(orders[n - Min(RECENT_COUNT, n)..])
  }

  datatype Summary = Summary(
    totalProducedToday: real, ordersToday: nat, lowStockItems: nat,
    totalProductionCost: real, totalDowntimeCost: real, completedOrdersCount: nat)

  datatype DashboardView = DashboardView(
    summary: Summary, recentOrders: seq<ProductionOrder>, stockAlerts: seq<StockAlert>)

  /** GET /dashboard, from the stored lists and the stock fold's levels. */
  function Dashboard(orders: seq<ProductionOrder>, materials: seq<RawMaterial>,
                     levels: map<Id, StockLevel>, events: seq<DowntimeEvent>,
                     usages: seq<MaterialUsage>, today: int): (d: DashboardView)
    ensures d.summary.lowStockItems == |d.stockAlerts| <= |materials|
    ensures d.summary.ordersToday <= |orders| && d.summary.completedOrdersCount <= |orders|
    ensures |d.recentOrders| <= RECENT_COUNT
  {
    var todays := TodayOrders(orders, today);
    DashboardView(
      Summary(SumProduced(todays), |todays|, |LowStockMaterials(materials, levels)|,
              ProductionCost(usages), DowntimeCost(events), |CompletedOrders(orders)|),
      RecentOrders(orders),
      StockAlerts(materials, levels))
  }

  // ---------------------------------------------------------------------
  // Dashboard properties

  /** Over levels produced by the stock fold, the dashboard's stock alerts
      are exactly the raw materials whose ledger stock is at or below their
      reorder point, each with that stock, and the summary counts them. */
  lemma DashboardStockAlerts(orders: seq<ProductionOrder>, materials: seq<RawMaterial>,
                             txs: seq<Transaction>, levels: map<Id, StockLevel>,
                             events: seq<DowntimeEvent>, usages: seq<MaterialUsage>, today: int)
    requires forall x :: x in levels <==> CountOf(txs, x) > 0
    requires forall x :: x in levels ==> levels[x].qty == QtyOf(txs, x)
    ensures var d := Dashboard(orders, materials, levels, events, usages, today);
      && d.summary.lowStockItems == |d.stockAlerts|
      && (forall a :: a in d.stockAlerts ==>
            a.material in materials && a.currentStock == QtyOf(txs, a.material.id)
            && a.currentStock <= a.material.reorderPoint)
      && (forall m :: m in materials && QtyOf(txs, m.id) <= m.reorderPoint ==>
            exists a :: a in d.stockAlerts && a.material == m)
  {
    var d := Dashboard(orders, materials, levels, events, usages, today);
    var low := LowStockMaterials(materials, levels);
    LowStockMaterialsSpec(materials, levels);
    forall a | a in d.stockAlerts
      ensures a.material in materials && a.currentStock == QtyOf(txs, a.material.id)
      ensures a.currentStock <= a.material.reorderPoint
    {
      var k :| 0 <= k < |d.stockAlerts| && d.stockAlerts[k] == a;
      assert low[k] in low;
      StockOrZeroIsQty(txs, levels, low[k].id);
    }
    forall m | m in materials && QtyOf(txs, m.id) <= m.reorderPoint
      ensures exists a :: a in d.stockAlerts && a.material == m
    {
      StockOrZeroIsQty(txs, levels, m.id);
      assert m in low;
      var k :| 0 <= k < |low| && low[k] == m;
      assert d.stockAlerts[k] in d.stockAlerts;
    }
  }

  /** Over levels produced by the stock fold, the k-th stock alert is the
      k-th low material of the ledger's own filter, with its ledger stock,
      and the low-stock figure is the length of that list: order and
      multiplicity follow the materials table. */
  lemma DashboardAlertsByLedger(orders: seq<ProductionOrder>, materials: seq<RawMaterial>,
                                txs: seq<Transaction>, levels: map<Id, StockLevel>,
                                events: seq<DowntimeEvent>, usages: seq<MaterialUsage>, today: int)
    requires forall x :: x in levels <==> CountOf(txs, x) > 0
    requires forall x :: x in levels ==> levels[x].qty == QtyOf(txs, x)
    ensures var d := Dashboard(orders, materials, levels, events, usages, today);
      var low := LowByLedger(materials, txs);
      && d.summary.lowStockItems == |d.stockAlerts| == |low|
      && (forall k :: 0 <= k < |d.stockAlerts| ==>
            d.stockAlerts[k] == StockAlert(low[k], QtyOf(txs, low[k].id)))
  {
    var d := Dashboard(orders, materials, levels, events, usages, today);
    var low := LowByLedger(materials, txs);
    LowStockMaterialsByLedger(materials, txs, levels);
    forall k | 0 <= k < |d.stockAlerts|
      ensures d.stockAlerts[k] == StockAlert(low[k], QtyOf(txs, low[k].id))
    {
      StockOrZeroIsQty(txs, levels, low[k].id);
    }
  }

  /** The dashboard's cost of a closed downtime event is the downtime log's
      cost of that event: the same rate and the same formula. */
  lemma EventCostAgrees(e: DowntimeEvent)
    requires e.startTime.Some? && e.endTime.Some?
    ensures EventCost(e) == Downtime.CalculateCost(e.startTime.value, e.endTime.value)
  {
  }

  /** Logging a downtime event adds its cost to the dashboard total, and an
      event without a start or end time adds nothing. */
  lemma DowntimeCostSnoc(events: seq<DowntimeEvent>, e: DowntimeEvent)
    ensures DowntimeCost(events + [e]) == DowntimeCost(events) + EventCost(e)
    ensures (e.startTime.None? || e.endTime.None?) ==> DowntimeCost(events + [e]) == DowntimeCost(events)
  {
    assert (events + [e])[..|events|] == events;
  }

  /** Production cost adds over concatenated usage lists. */
  lemma {:induction false} ProductionCostAppend(a: seq<MaterialUsage>, b: seq<MaterialUsage>)
    ensures ProductionCost(a + b) == ProductionCost(a) + ProductionCost(b)
  {
    if b == [] {
      assert a + b == a;
    } else {
      var n := |b| - 1;
      assert (a + b)[..|a + b| - 1] == a + b[..n];
      ProductionCostAppend(a, b[..n]);
    }
  }

  /** Only orders that ended today count towards today's output. */
  lemma {:induction false} ProducedTodayIgnoresOtherDays(orders: seq<ProductionOrder>, o: ProductionOrder, today: int)
    requires !EndedOn(o, today)
    ensures TodayOrders(orders + [o], today) == TodayOrders(orders, today)
    ensures SumProduced(TodayOrders(orders + [o], today)) == SumProduced(TodayOrders(orders, today))
  {
    assert (orders + [o])[..|orders|] == orders;
    assert TodayOrders(orders + [o], today) == TodayOrders(orders, today) + [];
  }

  // ---------------------------------------------------------------------
  // Cost report

  datatype CostReport = CostReport(
    orderId: Id, productName: Option<string>, producedQty: real,
    materialCost: real, costPerUnit: real, sellingPrice: real,
    revenue: real, profit: real, marginPercent: real, completedAt: Option<Time>)

  /** The usage rows of one order, in store order. */
  function UsagesOf(usages: seq<MaterialUsage>, orderId: Id): (r: seq<MaterialUsage>)
    ensures forall u :: u in r <==> u in usages && u.productionOrderId == orderId
  {
    if usages == [] then []
    else
      var n := |usages| - 1;
      UsagesOf(usages[..n], orderId) + (if usages[n].productionOrderId == orderId then [usages[n]] else [])
  }

  function MaterialCost(usages: seq<MaterialUsage>, orderId: Id): real
  {
    ProductionCost(UsagesOf(usages, orderId))
  }

  /** The first product record with the id. */
  function FindProduct(products: seq<Product>, id: Id): (r: Option<Product>)
    ensures r.Some? ==> r.value in products && r.value.id == id
    ensures r.None? ==> forall p :: p in products ==> p.id != id
  {
    if products == [] then None
    else if products[0].id == id then Some(products[0])
    else FindProduct(products[1..], id)
  }

  /** Cost, revenue, profit and margin of one completed order. */
  function ReportFor(o: ProductionOrder, usages: seq<MaterialUsage>, products: seq<Product>): (r: CostReport)
    ensures r.orderId == o.id && r.producedQty == o.actualProducedQty && r.completedAt == o.actualEnd
    ensures r.profit == r.revenue - r.materialCost
    ensures FindProduct(products, o.productId).Some? ==>
      var p := FindProduct(products, o.productId).value;
      r.sellingPrice == p.sellingPrice && r.productName == Some(p.name)
    ensures FindProduct(products, o.productId).None? ==> r.sellingPrice == 0.0 && r.productName.None?
    ensures r.revenue == o.actualProducedQty * r.sellingPrice
  {
    var cost := MaterialCost(usages, o.id);
    var product := FindProduct(products, o.productId);
    var price := if product.Some? then product.value.sellingPrice else 0.0;
    var costPerUnit := if o.actualProducedQty > 0.0 then cost / o.actualProducedQty else 0.0;
    var revenue := o.actualProducedQty * price;
    var profit := revenue - cost;
    var margin := if revenue > 0.0 then (profit / revenue) * 100.0 else 0.0;
    CostReport(o.id, if product.Some? then Some(product.value.name) else None,
               o.actualProducedQty, cost, costPerUnit, price, revenue, profit, margin, o.actualEnd)
  }

  /** GET /cost-reports: one report per completed order, in store order. */
  function CostReports(orders: seq<ProductionOrder>, usages: seq<MaterialUsage>,
                       products: seq<Product>): (r: seq<CostReport>)
    ensures |r| == |CompletedOrders(orders)|
    ensures forall k :: 0 <= k < |r| ==> r[k] == ReportFor(CompletedOrders(orders)[k], usages, products)
  {
    var done := CompletedOrders(orders);
    seq(|done|, k requires 0 <= k < |done| => ReportFor(done[k], usages, products))
  }

  // ---------------------------------------------------------------------
  // Cost report properties

  /** Every completed order has a report and every report belongs to a
      completed order. */
  lemma OneReportPerCompletedOrder(orders: seq<ProductionOrder>, usages: seq<MaterialUsage>,
                                   products: seq<Product>)
    ensures var r := CostReports(orders, usages, products);
      && (forall o :: o in orders && o.status == Completed ==>
            exists k :: 0 <= k < |r| && r[k].orderId == o.id && r[k].producedQty == o.actualProducedQty)
      && (forall rep :: rep in r ==>
            exists o :: o in orders && o.status == Completed && o.id == rep.orderId)
  {
    var r := CostReports(orders, usages, products);
    var done := CompletedOrders(orders);
    forall o | o in orders && o.status == Completed
      ensures exists k :: 0 <= k < |r| && r[k].orderId == o.id && r[k].producedQty == o.actualProducedQty
    {
      var k :| 0 <= k < |done| && done[k] == o;
      assert r[k].orderId == o.id;
    }
    forall rep | rep in r
      ensures exists o :: o in orders && o.status == Completed && o.id == rep.orderId
    {
      var k :| 0 <= k < |r| && r[k] == rep;
      assert done[k] in done;
    }
  }

  /** The completed-order filter keeps store order and multiplicity: it
      distributes over concatenation, and one order passes exactly when it
      is completed. */
  lemma {:induction false} CompletedOrdersKeepsOrder(a: seq<ProductionOrder>, b: seq<ProductionOrder>)
    ensures CompletedOrders(a + b) == CompletedOrders(a) + CompletedOrders(b)
    decreases |b|
  {
    if b == [] {
      assert a + b == a;
    } else {
      var n := |b| - 1;
      assert (a + b)[..|a + b| - 1] == a + b[..n];
      CompletedOrdersKeepsOrder(a, b[..n]);
    }
  }

  /** A single order passes the filter exactly when it is completed. */
  lemma CompletedOrdersOne(o: ProductionOrder)
    ensures CompletedOrders([o]) == if o.status == Completed then [o] else []
  {
    assert [o][..0] == [];
  }

  /** Completed orders of a store with distinct order ids have distinct
      ids. */
  lemma {:induction false} CompletedOrdersDistinct(orders: seq<ProductionOrder>)
    requires forall i, j :: 0 <= i < j < |orders| ==> orders[i].id != orders[j].id
    ensures forall i, j :: 0 <= i < j < |CompletedOrders(orders)| ==>
      CompletedOrders(orders)[i].id != CompletedOrders(orders)[j].id
  {
    if orders != [] {
      var n := |orders| - 1;
      CompletedOrdersDistinct(orders[..n]);
      var prev := CompletedOrders(orders[..n]);
      forall x | x in prev
        ensures x.id != orders[n].id
      {
        var i :| 0 <= i < n && orders[..n][i] == x;
        assert orders[i] == x;
      }
      var done := CompletedOrders(orders);
      assert done == prev + (if orders[n].status == Completed then [orders[n]] else []);
      forall i, j | 0 <= i < j < |done|
        ensures done[i].id != done[j].id
      {
        if j < |prev| {
          assert done[i] == prev[i] && done[j] == prev[j];
        } else {
          assert done[j] == orders[n];
          var x := prev[i];
          assert x in prev && done[i] == x;
          assert x.id != orders[n].id;
        }
      }
    }
  }

  /** With distinct order ids, a completed order has exactly one report,
      and it is that order's report. */
  lemma ExactlyOneReport(orders: seq<ProductionOrder>, usages: seq<MaterialUsage>,
                         products: seq<Product>, o: ProductionOrder)
    requires forall i, j :: 0 <= i < j < |orders| ==> orders[i].id != orders[j].id
    requires o in orders && o.status == Completed
    ensures var r := CostReports(orders, usages, products);
      exists k :: 0 <= k < |r| && r[k] == ReportFor(o, usages, products)
        && forall j :: 0 <= j < |r| && r[j].orderId == o.id ==> j == k
  {
    var r := CostReports(orders, usages, products);
    var done := CompletedOrders(orders);
    CompletedOrdersDistinct(orders);
    var k :| 0 <= k < |done| && done[k] == o;
    forall j | 0 <= j < |r| && r[j].orderId == o.id
      ensures j == k
    {
      assert r[j] == ReportFor(done[j], usages, products);
    }
  }

  /** The arithmetic of one report: profit is revenue less material cost,
      cost per unit spreads the cost over a positive output, and the margin
      is profit over a positive revenue, in percent. */
  lemma ReportArithmetic(o: ProductionOrder, usages: seq<MaterialUsage>, products: seq<Product>)
    ensures var r := ReportFor(o, usages, products);
      && r.profit == r.revenue - r.materialCost
      && r.revenue == r.producedQty * r.sellingPrice
      && r.materialCost == MaterialCost(usages, o.id)
      && (r.producedQty > 0.0 ==> r.costPerUnit * r.producedQty == r.materialCost)
      && (r.producedQty <= 0.0 ==> r.costPerUnit == 0.0)
      && (r.revenue > 0.0 ==> r.marginPercent * r.revenue == r.profit * 100.0)
      && (r.revenue <= 0.0 ==> r.marginPercent == 0.0)
  {
    var r := ReportFor(o, usages, products);
    if r.producedQty > 0.0 {
      QuotientTimesDivisor(r.materialCost, r.producedQty);
    }
    if r.revenue > 0.0 {
      PercentOf(r.profit, r.revenue);
    }
  }

  lemma QuotientTimesDivisor(a: real, b: real)
    requires b > 0.0
    ensures (a / b) * b == a
  {
  }

  lemma PercentOf(p: real, v: real)
    requires v > 0.0
    ensures ((p / v) * 100.0) * v == p * 100.0
  {
    QuotientTimesDivisor(p, v);
  }

  /** A report shows a negative margin exactly when the order earned
      something and its materials cost more than it earned. */
  lemma NegativeMarginIff(o: ProductionOrder, usages: seq<MaterialUsage>, products: seq<Product>)
    ensures var r := ReportFor(o, usages, products);
      r.marginPercent < 0.0 <==> r.revenue > 0.0 && r.materialCost > r.revenue
  {
    var r := ReportFor(o, usages, products);
    if r.revenue > 0.0 {
      SignOfQuotient(r.profit, r.revenue);
    }
  }

  lemma SignOfQuotient(p: real, v: real)
    requires v > 0.0
    ensures (p / v) * 100.0 < 0.0 <==> p < 0.0
  {
    QuotientTimesDivisor(p, v);
  }

  /** Usage rows of one order do not change another order's material cost. */
  lemma {:induction false} MaterialCostAppend(usages: seq<MaterialUsage>, more: seq<MaterialUsage>, orderId: Id)
    ensures MaterialCost(usages + more, orderId) == MaterialCost(usages, orderId) + MaterialCost(more, orderId)
  {
    UsagesOfAppend(usages, more, orderId);
    ProductionCostAppend(UsagesOf(usages, orderId), UsagesOf(more, orderId));
  }

  lemma {:induction false} UsagesOfAppend(a: seq<MaterialUsage>, b: seq<MaterialUsage>, orderId: Id)
    ensures UsagesOf(a + b, orderId) == UsagesOf(a, orderId) + UsagesOf(b, orderId)
  {
    if b == [] {
      assert a + b == a;
    } else {
      var n := |b| - 1;
      assert (a + b)[..|a + b| - 1] == a + b[..n];
      UsagesOfAppend(a, b[..n], orderId);
    }
  }
}

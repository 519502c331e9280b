/** One factory's partition of the key-value store and the HTTP handlers
    that change or read it. Each entity kind is a list in insertion order
    (the order a prefix scan returns); ids come from a counter, so every
    id the server generates is fresh. */
module Store {
  import opened Domain
  import opened Ledger
  import opened Production
  import Access
  import Reports

  /** The materials a completion of this product needs, in the iteration
      order of its required-materials dictionary. */
  function CompletionKeys(boms: seq<BomEntry>, productId: Id): seq<Id>
  {
    RequiredKeys(BomsFor(boms, productId))
  }

  function CompletionReq(boms: seq<BomEntry>, productId: Id, produced: real): (r: map<Id, real>)
    ensures forall m :: m in CompletionKeys(boms, productId) ==> m in r
  {
    RequiredDomain(BomsFor(boms, productId), produced);
    Required(BomsFor(boms, productId), produced)
  }

  /** The alert list without the alert stored under the id. */
  function WithoutAlert(alerts: seq<Alert>, id: Id): seq<Alert>
  {
    if alerts == [] then []
    else
      var n := |alerts| - 1;
      WithoutAlert(alerts[..n], id) + (if alerts[n].id != id then [alerts[n]] else [])
  }

  /** The remaining alerts are exactly the stored ones under other ids. */
  lemma {:induction false} WithoutAlertSpec(alerts: seq<Alert>, id: Id)
    ensures forall a :: a in WithoutAlert(alerts, id) <==> a in alerts && a.id != id
    ensures |WithoutAlert(alerts, id)| <= |alerts|
  {
    if alerts != [] {
      var n := |alerts| - 1;
      WithoutAlertSpec(alerts[..n], id);
      assert alerts == alerts[..n] + [alerts[n]];
    }
  }

  /** Deleting an alert twice is the same as deleting it once. */
  lemma {:induction false} WithoutAlertIdempotent(alerts: seq<Alert>, id: Id)
    ensures WithoutAlert(WithoutAlert(alerts, id), id) == WithoutAlert(alerts, id)
  {
    if alerts != [] {
      var n := |alerts| - 1;
      var prev := WithoutAlert(alerts[..n], id);
      WithoutAlertIdempotent(alerts[..n], id);
      if alerts[n].id == id {
        assert WithoutAlert(alerts, id) == prev + [];
        assert prev + [] == prev;
      } else {
        var r := prev + [alerts[n]];
        assert WithoutAlert(alerts, id) == r;
        assert r[..|r| - 1] == prev;
        assert WithoutAlert(r, id) == WithoutAlert(prev, id) + [alerts[n]];
      }
    }
  }

  /** Deleting an id that no alert carries changes nothing. */
  lemma {:induction false} WithoutMissingAlert(alerts: seq<Alert>, id: Id)
    requires forall k :: 0 <= k < |alerts| ==> alerts[k].id != id
    ensures WithoutAlert(alerts, id) == alerts
  {
    if alerts != [] {
      var n := |alerts| - 1;
      WithoutMissingAlert(alerts[..n], id);
      assert alerts == alerts[..n] + [alerts[n]];
    }
  }

  /** The checks a completion passes before it writes anything: the order
      exists, is not yet completed, and every required material is in
      stock. */
  ghost predicate CompletionAccepted(orders: seq<ProductionOrder>, boms: seq<BomEntry>,
                                     txs: seq<Transaction>, orderId: Id, produced: real)
  {
    var f := FindOrder(orders, orderId);
    && f.Some? && orders[f.value].status != Completed
    && FirstShortage(CompletionKeys(boms, orders[f.value].productId),
                     CompletionReq(boms, orders[f.value].productId, produced), txs).None?
  }

  /** The tables after an accepted completion of order `i` consuming the
      required quantities `req` of the materials `keys`, given the tables
      before it and the id counter `base`: the order completed in place,
      one consumption and one usage row per required material, then one
      low-stock alert per raw material that ends at or below its reorder
      point, all numbered from `base` on. */
  ghost predicate CompletionWritten(orders0: seq<ProductionOrder>, i: nat, keys: seq<Id>, req: map<Id, real>,
                                    txs0: seq<Transaction>, usages0: seq<MaterialUsage>,
                                    alerts0: seq<Alert>, materials0: seq<RawMaterial>, base: Id,
                                    orderId: Id, produced: real, now: Time,
                                    orders: seq<ProductionOrder>, txs: seq<Transaction>,
                                    usages: seq<MaterialUsage>, alerts: seq<Alert>, nextId: Id)
  {
    && i < |orders0| && orders0[i].status != Completed
    && (forall m :: m in keys ==> m in req)
    && CostBasisDefined(txs0, keys)
    && orders == orders0[i := CompletedOrder(orders0[i], produced, now)]
    && txs == txs0 + ConsumptionRows(keys, req, txs0, orderId, base, now)
    && usages == usages0 + UsageRows(keys, req, txs0, orderId, base, now)
    && alerts == alerts0 + LowStockAlerts(materials0, txs0, req, base + 2 * |keys|, now)
    && nextId == base + 2 * |keys| + |LowMaterials(materials0, txs0, req)|
  }

  /** After a completion the derived stock of every material is its stock
      before less its requirement (nothing for a material the bill of
      materials does not list): the very quantity the low-stock check
      compares with the reorder point. */
  lemma CompletionLowersStock(orders0: seq<ProductionOrder>, boms0: seq<BomEntry>, i: nat,
                              txs0: seq<Transaction>, usages0: seq<MaterialUsage>,
                              alerts0: seq<Alert>, materials0: seq<RawMaterial>, base: Id,
                              orderId: Id, produced: real, now: Time,
                              orders: seq<ProductionOrder>, txs: seq<Transaction>,
                              usages: seq<MaterialUsage>, alerts: seq<Alert>, nextId: Id, m: Id)
    requires i < |orders0|
    requires CompletionWritten(orders0, i, CompletionKeys(boms0, orders0[i].productId),
                               CompletionReq(boms0, orders0[i].productId, produced),
                               txs0, usages0, alerts0, materials0, base,
                               orderId, produced, now, orders, txs, usages, alerts, nextId)
    ensures QtyOf(txs, m) == StockAfter(txs0, CompletionReq(boms0, orders0[i].productId, produced), m)
    ensures CountOf(txs, m) == CountOf(txs0, m) + (if m in CompletionKeys(boms0, orders0[i].productId) then 1 else 0)
  {
    var entries := BomsFor(boms0, orders0[i].productId);
    var keys := CompletionKeys(boms0, orders0[i].productId);
    var req := CompletionReq(boms0, orders0[i].productId, produced);
    RequiredKeysSpec(entries);
    RequiredDomain(entries, produced);
    StockDropsByRequirement(keys, req, txs0, orderId, base, now, m);
  }

  class FactoryStore {
    var products: seq<Product>
    var materials: seq<RawMaterial>
    var boms: seq<BomEntry>
    var txs: seq<Transaction>
    var orders: seq<ProductionOrder>
    var usages: seq<MaterialUsage>
    var events: seq<DowntimeEvent>
    var alerts: seq<Alert>
    /** The next id the generator hands out. */
    var nextId: Id

    /** Material and order ids are keys: each is stored once, and every
        order id was generated before the current counter. */
    ghost predicate Valid()
      reads this
    {
      && (forall i, j :: 0 <= i < j < |materials| ==> materials[i].id != materials[j].id)
      && (forall i, j :: 0 <= i < j < |orders| ==> orders[i].id != orders[j].id)
      && (forall k :: 0 <= k < |orders| ==> orders[k].id < nextId)
    }

    /** A store holding the given master data and nothing else. */
    constructor (products: seq<Product>, materials: seq<RawMaterial>, boms: seq<BomEntry>, firstId: Id)
      requires forall i, j :: 0 <= i < j < |materials| ==> materials[i].id != materials[j].id
      ensures Valid()
      ensures this.products == products && this.materials == materials && this.boms == boms
      ensures txs == [] && orders == [] && usages == [] && events == [] && alerts == []
      ensures nextId == firstId
    {
      this.products, this.materials, this.boms := products, materials, boms;
      txs, orders, usages, events, alerts := [], [], [], [], [];
      nextId := firstId;
    }

    // -------------------------------------------------------------------
    // Ledger

    /** POST /inventory-transactions: append one signed ledger row. */
    method PostTransaction(user: Option<User>, materialId: Id, txType: TxType, qty: real,
                           unitCost: real, relatedOrderId: Option<Id>, now: Time)
      returns (r: Result<Transaction>)
      requires Valid()
      modifies this`txs, this`nextId
      ensures Valid()
      ensures !Access.Authorized(user, Access.TransactionCreate) ==>
        r == Err(Unauthorized) && unchanged(this)
      ensures Access.Authorized(user, Access.TransactionCreate) ==>
        && r == Ok(Transaction(old(nextId), materialId, txType, qty, unitCost, relatedOrderId, now))
        && txs == old(txs) + [r.value] && nextId == old(nextId) + 1
        && products == old(products) && materials == old(materials) && boms == old(boms)
        && orders == old(orders) && usages == old(usages) && events == old(events) && alerts == old(alerts)
        && (forall m :: QtyOf(txs, m) == old(QtyOf(txs, m)) + (if m == materialId then qty else 0.0))
    {
      if !Access.Authorized(user, Access.TransactionCreate) {
        return Err(Unauthorized);
      }
      var t := Transaction(nextId, materialId, txType, qty, unitCost, relatedOrderId, now);
      forall m
        ensures QtyOf(txs + [t], m) == QtyOf(txs, m) + (if m == materialId then qty else 0.0)
      {
        FoldSnoc(txs, t, m);
      }
      txs := txs + [t];
      nextId := nextId + 1;
      r := Ok(t);
    }

    /** GET /inventory: the ledger fold, enriched with the material records. */
    method GetInventory(user: Option<User>) returns (r: Result<seq<InventoryRow>>)
      ensures !Access.Authorized(user, Access.InventoryView) <==> r == Err(Unauthorized)
      ensures r.Ok? ==>
        && |r.value| == |SeenMaterials(txs)|
        && forall k :: 0 <= k < |r.value| ==>
             && r.value[k].materialId == SeenMaterials(txs)[k]
             && r.value[k].totalQty == QtyOf(txs, r.value[k].materialId)
             && r.value[k].totalValue == ValueOf(txs, r.value[k].materialId)
             && r.value[k].transactionsCount == CountOf(txs, r.value[k].materialId) > 0
             && NamedAfterRecord(r.value[k], materials)
             && r.value[k].reorderPoint == ReorderPointOrZero(materials, r.value[k].materialId)
             && r.value[k].avgUnitCost == AvgUnitCost(r.value[k].totalQty, r.value[k].totalValue)
             && (r.value[k].needsReorder <==> r.value[k].totalQty <= r.value[k].reorderPoint)
    {
      if !Access.Authorized(user, Access.InventoryView) {
        return Err(Unauthorized);
      }
      var rows := Inventory(txs, materials);
      r := Ok(rows);
    }

    // -------------------------------------------------------------------
    // Production orders

    /** POST /production-orders: a new scheduled order with nothing produced. */
    method CreateOrder(user: Option<User>, productId: Id, targetQty: real,
                       scheduledStart: Option<Time>, now: Time)
      returns (r: Result<ProductionOrder>)
      requires Valid()
      modifies this`orders, this`nextId
      ensures Valid()
      ensures !Access.Authorized(user, Access.OrderCreate) ==>
        r == Err(Unauthorized) && unchanged(this)
      ensures Access.Authorized(user, Access.OrderCreate) ==>
        && r == Ok(ProductionOrder(old(nextId), productId, targetQty, 0.0, Scheduled,
                                   scheduledStart, None, None, now, None))
        && orders == old(orders) + [r.value] && nextId == old(nextId) + 1
        && products == old(products) && materials == old(materials) && boms == old(boms)
        && txs == old(txs) && usages == old(usages) && events == old(events) && alerts == old(alerts)
      ensures OrdersAdvance(old(orders), orders)
    {
      if !Access.Authorized(user, Access.OrderCreate) {
        return Err(Unauthorized);
      }
      var o := ProductionOrder(nextId, productId, targetQty, 0.0, Scheduled, scheduledStart, None, None, now, None);
      orders := orders + [o];
      nextId := nextId + 1;
      r := Ok(o);
    }

    /** PUT /production-orders/:id/start: only a scheduled order starts. */
    method StartOrder(user: Option<User>, orderId: Id, now: Time) returns (r: Result<ProductionOrder>)
      requires Valid()
      modifies this`orders
      ensures Valid()
      ensures OrdersAdvance(old(orders), orders)
      ensures !Access.Authorized(user, Access.OrderStart) ==> r == Err(Unauthorized)
      ensures Access.Authorized(user, Access.OrderStart) && FindOrder(old(orders), orderId).None? ==>
        r == Err(NotFound)
      ensures Access.Authorized(user, Access.OrderStart) && FindOrder(old(orders), orderId).Some? ==>
        var i := FindOrder(old(orders), orderId).value;
        && (old(orders)[i].status != Scheduled ==> r == Err(InvalidTransition))
        && (old(orders)[i].status == Scheduled ==>
              && r == Ok(StartedOrder(old(orders)[i], now))
              && orders == old(orders)[i := r.value])
      ensures r.Err? ==> unchanged(this)
      ensures r.Ok? ==>
        && products == old(products) && materials == old(materials) && boms == old(boms)
        && txs == old(txs) && usages == old(usages) && events == old(events) && alerts == old(alerts)
        && nextId == old(nextId)
    {
      if !Access.Authorized(user, Access.OrderStart) {
        return Err(Unauthorized);
      }
      var found := FindOrder(orders, orderId);
      if found.None? {
        return Err(NotFound);
      }
      var i := found.value;
      if orders[i].status != Scheduled {
        return Err(InvalidTransition);
      }
      var o := StartedOrder(orders[i], now);
      StepAdvances(orders, i, o);
      orders := orders[i := o];
      r := Ok(o);
    }

    /** PUT /production-orders/:id/complete. Rejects a missing or completed
        order (a scheduled one is accepted), then resolves the bill of
        materials, checks every required material's stock before writing
        anything, and commits the completion. */
    method CompleteOrder(user: Option<User>, orderId: Id, produced: real, now: Time)
      returns (r: Result<ProductionOrder>)
      requires Valid()
      requires Access.Authorized(user, Access.OrderComplete) && CompletionAccepted(orders, boms, txs, orderId, produced) ==>
        CostBasisDefined(txs, CompletionKeys(boms, orders[FindOrder(orders, orderId).value].productId))
      modifies this`txs, this`usages, this`orders, this`alerts, this`nextId
      ensures Valid()
      ensures OrdersAdvance(old(orders), orders)
      ensures r.Err? ==> unchanged(this)
      ensures !Access.Authorized(user, Access.OrderComplete) ==> r == Err(Unauthorized)
      ensures Access.Authorized(user, Access.OrderComplete) ==>
        var f := FindOrder(old(orders), orderId);
        && (f.None? ==> r == Err(NotFound))
        && (f.Some? && old(orders)[f.value].status == Completed ==> r == Err(AlreadyCompleted))
      ensures Access.Authorized(user, Access.OrderComplete) ==>
        var f := FindOrder(old(orders), orderId);
        f.Some? && old(orders)[f.value].status != Completed ==>
          var keys := CompletionKeys(old(boms), old(orders)[f.value].productId);
          var req := CompletionReq(old(boms), old(orders)[f.value].productId, produced);
          var s := FirstShortage(keys, req, old(txs));
          s.Some? ==> r == Err(InsufficientStock(keys[s.value], req[keys[s.value]], QtyOf(old(txs), keys[s.value])))
      ensures r.Ok? <==> Access.Authorized(user, Access.OrderComplete) && CompletionAccepted(old(orders), old(boms), old(txs), orderId, produced)
      ensures r.Ok? ==>
        && r == Ok(CompletedOrder(old(orders)[FindOrder(old(orders), orderId).value], produced, now))
        && var i := FindOrder(old(orders), orderId).value;
           CompletionWritten(old(orders), i, CompletionKeys(old(boms), old(orders)[i].productId),
                             CompletionReq(old(boms), old(orders)[i].productId, produced),
                             old(txs), old(usages), old(alerts), old(materials), old(nextId),
                             orderId, produced, now, orders, txs, usages, alerts, nextId)
    {
      if !Access.Authorized(user, Access.OrderComplete) {
        return Err(Unauthorized);
      }
      var found := FindOrder(orders, orderId);
      if found.None? {
        return Err(NotFound);
      }
      var i := found.value;
      var o := orders[i];
      if o.status == Completed {
        return Err(AlreadyCompleted);
      }
      var req, keys := BuildRequired(BomsFor(boms, o.productId), produced);
      var levels, _ := FoldStock(txs);
      var shortage := CheckStock(keys, req, levels, txs);
      if shortage.Some? {
        assert !CompletionAccepted(old(orders), old(boms), old(txs), orderId, produced);
        var k := shortage.value;
        StockOrZeroIsQty(txs, levels, keys[k]);
        return Err(InsufficientStock(keys[k], req[keys[k]], StockOrZero(levels, keys[k])));
      }
      CommitCompletion(i, orderId, produced, now, keys, req, levels,
                       old(orders), old(txs), old(usages), old(alerts), old(nextId), old(materials));
      r := Ok(orders[i]);
    }

    /** The writes of an accepted completion: one consumption and one usage
        row per material, the order completed, and a low-stock alert for
        every raw material that ends at or below its reorder point. The
        ghost parameters name the tables as the handler found them. */
    method CommitCompletion(i: nat, orderId: Id, produced: real, now: Time,
                            keys: seq<Id>, req: map<Id, real>, levels: map<Id, StockLevel>,
                            ghost orders0: seq<ProductionOrder>,
                            ghost txs0: seq<Transaction>, ghost usages0: seq<MaterialUsage>,
                            ghost alerts0: seq<Alert>, ghost base0: Id, ghost materials0: seq<RawMaterial>)
      requires orders == orders0 && txs == txs0
      requires usages == usages0 && alerts == alerts0 && nextId == base0 && materials == materials0
      requires Valid()
      requires i < |orders0| && orders0[i].status != Completed
      requires forall m :: m in keys ==> m in req
      requires CostBasisDefined(txs0, keys)
      requires forall m :: m in levels <==> CountOf(txs0, m) > 0
      requires forall m :: m in levels ==>
        levels[m] == StockLevel(QtyOf(txs0, m), ValueOf(txs0, m), CountOf(txs0, m))
      modifies this`txs, this`usages, this`orders, this`alerts, this`nextId
      ensures Valid()
      ensures OrdersAdvance(orders0, orders)
      ensures CompletionWritten(orders0, i, keys, req, txs0, usages0, alerts0, materials0, base0,
                                orderId, produced, now, orders, txs, usages, alerts, nextId)
    {
      AppendConsumption(keys, req, levels, orderId, now);
      var done := CompletedOrder(orders[i], produced, now);
      StepAdvances(orders, i, done);
      orders := orders[i := done];
      AppendLowStockAlerts(req, levels, txs0, now);
    }

    /** The completion's write loop: per required material, a consumption
        row at the material's average cost and a usage row mirroring it. */
    method AppendConsumption(keys: seq<Id>, req: map<Id, real>, levels: map<Id, StockLevel>,
                             orderId: Id, now: Time)
      requires forall m :: m in keys ==> m in req
      requires CostBasisDefined(txs, keys)
      requires forall m :: m in levels <==> CountOf(txs, m) > 0
      requires forall m :: m in levels ==>
        levels[m] == StockLevel(QtyOf(txs, m), ValueOf(txs, m), CountOf(txs, m))
      modifies this`txs, this`usages, this`nextId
      ensures txs == old(txs) + ConsumptionRows(keys, req, old(txs), orderId, old(nextId), now)
      ensures usages == old(usages) + UsageRows(keys, req, old(txs), orderId, old(nextId), now)
      ensures nextId == old(nextId) + 2 * |keys|
    {
      ghost var txs0 := txs;
      var base := nextId;
      var j := 0;
      while j < |keys|
        invariant 0 <= j <= |keys|
        invariant txs == txs0 + ConsumptionRows(keys[..j], req, txs0, orderId, base, now)
        invariant usages == old(usages) + UsageRows(keys[..j], req, txs0, orderId, base, now)
        invariant nextId == base + 2 * j
      {
        var m := keys[j];
        assert m in keys;
        var stock := levels[m];
        var avgUnitCost := if stock.count > 0 then stock.value / stock.qty else 0.0;
        assert avgUnitCost == UnitCostAt(txs0, m);
        var tx := Transaction(nextId, m, Consumption, -req[m], avgUnitCost, Some(orderId), now);
        var usage := MaterialUsage(nextId + 1, orderId, m, req[m], avgUnitCost, now);
        RowsStep(keys, req, txs0, orderId, base, now, j);
        txs := txs + [tx];
        usages := usages + [usage];
        nextId := nextId + 2;
        j := j + 1;
      }
      assert keys[..j] == keys;
    }

    /** The completion's alert loop over every raw material, using the
        stock read before the completion less the requirement. */
    method AppendLowStockAlerts(req: map<Id, real>, levels: map<Id, StockLevel>,
                                ghost txs0: seq<Transaction>, now: Time)
      requires forall m :: m in levels <==> CountOf(txs0, m) > 0
      requires forall m :: m in levels ==> levels[m].qty == QtyOf(txs0, m)
      modifies this`alerts, this`nextId
      ensures alerts == old(alerts) + LowStockAlerts(materials, txs0, req, old(nextId), now)
      ensures nextId == old(nextId) + |LowMaterials(materials, txs0, req)|
    {
      var base := nextId;
      var k := 0;
      while k < |materials|
        invariant 0 <= k <= |materials|
        invariant alerts == old(alerts) + LowStockAlerts(materials[..k], txs0, req, base, now)
        invariant nextId == base + |LowStockAlerts(materials[..k], txs0, req, base, now)|
      {
        var mat := materials[k];
        StockOrZeroIsQty(txs0, levels, mat.id);
        var newStock := StockOrZero(levels, mat.id) - (if mat.id in req then req[mat.id] else 0.0);
        LowStockAlertsStep(materials, k, txs0, req, base, now);
        if newStock <= mat.reorderPoint {
          alerts := alerts + [Alert(nextId, LowStock, High, Some(mat.id), now)];
          nextId := nextId + 1;
        }
        k := k + 1;
      }
      assert materials[..k] == materials;
      LowStockAlertsShape(materials, txs0, req, base, now);
    }

    // -------------------------------------------------------------------
    // Downtime and alerts

    /** POST /downtime-events: append the event as given. */
    method PostDowntime(user: Option<User>, productionOrderId: Id, reason: string,
                        startTime: Option<Time>, endTime: Option<Time>, now: Time)
      returns (r: Result<DowntimeEvent>)
      requires Valid()
      modifies this`events, this`nextId
      ensures Valid()
      ensures !Access.Authorized(user, Access.DowntimeCreate) ==>
        r == Err(Unauthorized) && unchanged(this)
      ensures Access.Authorized(user, Access.DowntimeCreate) ==>
        && r == Ok(DowntimeEvent(old(nextId), productionOrderId, reason, startTime, endTime, now))
        && events == old(events) + [r.value] && nextId == old(nextId) + 1
        && products == old(products) && materials == old(materials) && boms == old(boms)
        && txs == old(txs) && orders == old(orders) && usages == old(usages) && alerts == old(alerts)
        && Reports.DowntimeCost(events) == Reports.DowntimeCost(old(events)) + Reports.EventCost(r.value)
    {
      if !Access.Authorized(user, Access.DowntimeCreate) {
        return Err(Unauthorized);
      }
      var e := DowntimeEvent(nextId, productionOrderId, reason, startTime, endTime, now);
      Reports.DowntimeCostSnoc(events, e);
      events := events + [e];
      nextId := nextId + 1;
      r := Ok(e);
    }

    /** DELETE /alerts/:id: any member of the factory may dismiss; deleting
        a missing alert succeeds and changes nothing. */
    method DismissAlert(user: Option<User>, alertId: Id) returns (r: Result<()>)
      requires Valid()
      modifies this`alerts
      ensures Valid()
      ensures !Access.Authorized(user, Access.AlertDismiss) ==> r == Err(Unauthorized) && unchanged(this)
      ensures Access.Authorized(user, Access.AlertDismiss) ==>
        && r == Ok(())
        && alerts == WithoutAlert(old(alerts), alertId)
        && products == old(products) && materials == old(materials) && boms == old(boms)
        && txs == old(txs) && orders == old(orders) && usages == old(usages) && events == old(events)
        && nextId == old(nextId)
    {
      if !Access.Authorized(user, Access.AlertDismiss) {
        return Err(Unauthorized);
      }
      alerts := WithoutAlert(alerts, alertId);
      r := Ok(());
    }

    // -------------------------------------------------------------------
    // Reports

    /** GET /dashboard for the given UTC day. */
    method GetDashboard(user: Option<User>, today: int) returns (r: Result<Reports.DashboardView>)
      ensures !Access.Authorized(user, Access.DashboardView) <==> r == Err(Unauthorized)
      ensures r.Ok? ==>
        var d := r.value;
        && d.summary.totalProducedToday == Reports.SumProduced(Reports.TodayOrders(orders, today))
        && d.summary.ordersToday == |Reports.TodayOrders(orders, today)|
        && d.summary.completedOrdersCount == |Reports.CompletedOrders(orders)|
        && d.summary.totalProductionCost == Reports.ProductionCost(usages)
        && d.summary.totalDowntimeCost == Reports.DowntimeCost(events)
        && d.recentOrders == Reports.RecentOrders(orders)
        && d.summary.lowStockItems == |d.stockAlerts| == |Reports.LowByLedger(materials, txs)|
        && (forall k :: 0 <= k < |d.stockAlerts| ==>
              d.stockAlerts[k] == Reports.StockAlert(Reports.LowByLedger(materials, txs)[k],
                                                     QtyOf(txs, Reports.LowByLedger(materials, txs)[k].id)))
        && (forall a :: a in d.stockAlerts ==>
              a.material in materials && a.currentStock == QtyOf(txs, a.material.id)
              && a.currentStock <= a.material.reorderPoint)
        && (forall m :: m in materials && QtyOf(txs, m.id) <= m.reorderPoint ==>
              exists a :: a in d.stockAlerts && a.material == m)
    {
      if !Access.Authorized(user, Access.DashboardView) {
        return Err(Unauthorized);
      }
      var levels, _ := FoldStock(txs);
      Reports.DashboardStockAlerts(orders, materials, txs, levels, events, usages, today);
      Reports.DashboardAlertsByLedger(orders, materials, txs, levels, events, usages, today);
      r := Ok(Reports.Dashboard(orders, materials, levels, events, usages, today));
    }

    /** GET /cost-reports: only Owners, Accountants and Plant Managers. */
    method GetCostReports(user: Option<User>) returns (r: Result<seq<Reports.CostReport>>)
      ensures !Access.Authorized(user, Access.CostReportsView) <==> r == Err(Unauthorized)
      ensures r.Ok? ==> r.value == Reports.CostReports(orders, usages, products)
      ensures r.Ok? ==> user.value.role in [OWNER, ACCOUNTANT, PLANT_MANAGER]
    {
      if !Access.Authorized(user, Access.CostReportsView) {
        return Err(Unauthorized);
      }
      r := Ok(Reports.CostReports(orders, usages, products));
    }
  }
}

/** The production-order lifecycle and the pieces of the completion
    transaction: resolving the bill of materials into required quantities,
    the all-or-nothing stock check, and the consumption, usage and low-stock
    alert rows that a successful completion appends. */
module Production {
  import opened Domain
  import opened Ledger

  // ---------------------------------------------------------------------
  // Order lifecycle

  /** Index of the order stored under the id (ids are unique keys). */
  function FindOrder(orders: seq<ProductionOrder>, id: Id): (r: Option<nat>)
    ensures r.Some? ==> r.value < |orders| && orders[r.value].id == id
    ensures r.None? ==> forall k :: 0 <= k < |orders| ==> orders[k].id != id
  {
    if orders == [] then None
    else if orders[0].id == id then Some(0)
    else match FindOrder(orders[1..], id)
      case None => None
      case Some(k) => Some(k + 1)
  }

  /** The order after a successful start. */
  function StartedOrder(o: ProductionOrder, now: Time): (r: ProductionOrder)
    requires o.status == Scheduled
    ensures StatusRank(r.status) == StatusRank(o.status) + 1
    ensures r.id == o.id && r.productId == o.productId && r.actualStart == Some(now)
  {
    o.(status := InProgress, actualStart := Some(now), updatedAt := Some(now))
  }

  /** The order after a successful completion; allowed from scheduled as
      well as from in_progress. */
  function CompletedOrder(o: ProductionOrder, produced: real, now: Time): (r: ProductionOrder)
    requires o.status != Completed
    ensures StatusRank(r.status) > StatusRank(o.status) && r.status == Completed
    ensures r.id == o.id && r.productId == o.productId
    ensures r.actualProducedQty == produced && r.actualEnd == Some(now)
  {
    o.(status := Completed, actualProducedQty := produced, actualEnd := Some(now), updatedAt := Some(now))
  }

  /** Between two states of the order list: no order disappears or changes
      id, no status moves backwards, and a completed order is frozen. */
  predicate OrdersAdvance(before: seq<ProductionOrder>, after: seq<ProductionOrder>)
  {
    && |before| <= |after|
    && forall k :: 0 <= k < |before| ==>
         && after[k].id == before[k].id
         && StatusRank(before[k].status) <= StatusRank(after[k].status)
         && (before[k].status == Completed ==> after[k] == before[k])
  }

  /** Advancing is transitive, so any sequence of handler calls keeps it. */
  lemma OrdersAdvanceTransitive(a: seq<ProductionOrder>, b: seq<ProductionOrder>, c: seq<ProductionOrder>)
    requires OrdersAdvance(a, b) && OrdersAdvance(b, c)
    ensures OrdersAdvance(a, c)
  {
    forall k | 0 <= k < |a|
      ensures c[k].id == a[k].id
      ensures StatusRank(a[k].status) <= StatusRank(c[k].status)
      ensures a[k].status == Completed ==> c[k] == a[k]
    {
      assert b[k].id == a[k].id;
    }
  }

  /** A single step of the lifecycle replaces one order by its successor. */
  lemma StepAdvances(orders: seq<ProductionOrder>, i: nat, o: ProductionOrder)
    requires i < |orders|
    requires o.id == orders[i].id
    requires orders[i].status != Completed
    requires StatusRank(orders[i].status) < StatusRank(o.status)
    ensures OrdersAdvance(orders, orders[i := o])
  {
  }

  // ---------------------------------------------------------------------
  // Bill of materials

  /** The BOM entries of one product, in store order. */
  function BomsFor(boms: seq<BomEntry>, productId: Id): (r: seq<BomEntry>)
    ensures forall b :: b in r <==> b in boms && b.productId == productId
  {
    if boms == [] then []
    else (if boms[0].productId == productId then [boms[0]] else []) + BomsFor(boms[1..], productId)
  }

  /** Materials in order of their first BOM entry: the iteration order of
      the required-materials dictionary. */
  function RequiredKeys(entries: seq<BomEntry>): seq<Id>
  {
    if entries == [] then []
    else
      var prev := RequiredKeys(entries[..|entries| - 1]);
      var m := entries[|entries| - 1].rawMaterialId;
      if m in prev then prev else prev + [m]
  }

  /** A quantity scaled by a factor (a per-unit requirement by the produced
      quantity, a quantity by a unit cost); named so that the products are
      matched as terms rather than re-derived. */
  function Scaled(x: real, c: real): real
  {
    x * c
  }

  /** The required-materials dictionary, built entry by entry, so a later
      entry for the same material overwrites an earlier one. */
  function Required(entries: seq<BomEntry>, produced: real): map<Id, real>
  {
    if entries == [] then map[]
    else
      var e := entries[|entries| - 1];
      Required(entries[..|entries| - 1], produced)[e.rawMaterialId := Scaled(e.qtyPerUnit, produced)]
  }

  /** The dictionary's keys are exactly the listed materials. */
  lemma {:induction false} RequiredDomain(entries: seq<BomEntry>, produced: real)
    ensures forall m :: m in Required(entries, produced) <==> m in RequiredKeys(entries)
  {
    if entries != [] {
      RequiredDomain(entries[..|entries| - 1], produced);
    }
  }

  /** One key per distinct material of the entries, each once. */
  lemma {:induction false} RequiredKeysSpec(entries: seq<BomEntry>)
    ensures Distinct(RequiredKeys(entries))
    ensures forall m :: m in RequiredKeys(entries) <==>
      exists k :: 0 <= k < |entries| && entries[k].rawMaterialId == m
  {
    if entries != [] {
      var n := |entries| - 1;
      RequiredKeysSpec(entries[..n]);
      forall m
        ensures m in RequiredKeys(entries) <==>
          exists k :: 0 <= k < |entries| && entries[k].rawMaterialId == m
      {
        if m in RequiredKeys(entries[..n]) {
          var k :| 0 <= k < n && entries[..n][k].rawMaterialId == m;
          assert entries[k].rawMaterialId == m;
        }
        if exists k :: 0 <= k < |entries| && entries[k].rawMaterialId == m {
          var k :| 0 <= k < |entries| && entries[k].rawMaterialId == m;
          if k < n {
            assert entries[..n][k].rawMaterialId == m;
          }
        }
      }
    }
  }

  /** The required quantity of a material is its LAST entry's qty_per_unit
      times the produced quantity. */
  lemma {:induction false} RequiredLastWins(entries: seq<BomEntry>, produced: real, k: nat)
    requires k < |entries|
    requires forall j :: k < j < |entries| ==> entries[j].rawMaterialId != entries[k].rawMaterialId
    ensures entries[k].rawMaterialId in Required(entries, produced)
    ensures Required(entries, produced)[entries[k].rawMaterialId] == Scaled(entries[k].qtyPerUnit, produced)
  {
    var n := |entries| - 1;
    if k < n {
      RequiredLastWins(entries[..n], produced, k);
    }
  }

  /** Adding one BOM entry sets (or overwrites) that one material. */
  lemma RequiredStep(entries: seq<BomEntry>, produced: real, i: nat)
    requires i < |entries|
    ensures forall m :: m in Required(entries[..i + 1], produced) <==>
      m in Required(entries[..i], produced) || m == entries[i].rawMaterialId
    ensures forall m :: m in Required(entries[..i + 1], produced) ==>
      Required(entries[..i + 1], produced)[m] ==
        if m == entries[i].rawMaterialId then Scaled(entries[i].qtyPerUnit, produced)
        else Required(entries[..i], produced)[m]
  {
    var s := entries[..i + 1];
    assert s[..|s| - 1] == entries[..i];
    assert s[|s| - 1] == entries[i];
    assert Required(s, produced)
      == Required(entries[..i], produced)[entries[i].rawMaterialId := Scaled(entries[i].qtyPerUnit, produced)];
  }

  /** The loop at the start of completion that fills the dictionary. */
  method BuildRequired(entries: seq<BomEntry>, produced: real) returns (req: map<Id, real>, keys: seq<Id>)
    ensures req == Required(entries, produced)
    ensures keys == RequiredKeys(entries)
  {
    req, keys := map[], [];
    var i := 0;
    while i < |entries|
      invariant 0 <= i <= |entries|
      invariant forall m :: m in req <==> m in Required(entries[..i], produced)
      invariant forall m :: m in req ==> req[m] == Required(entries[..i], produced)[m]
      invariant keys == RequiredKeys(entries[..i])
    {
      var e := entries[i];
      assert entries[..i + 1][..i] == entries[..i];
      RequiredStep(entries, produced, i);
      RequiredDomain(entries[..i], produced);
      if e.rawMaterialId !in req {
        keys := keys + [e.rawMaterialId];
      }
      req := req[e.rawMaterialId := Scaled(e.qtyPerUnit, produced)];
      i := i + 1;
    }
    assert entries[..i] == entries;
    var spec := Required(entries, produced);
    assert req.Keys == spec.Keys;
    assert forall m :: m in req ==> req[m] == spec[m];
  }

  // ---------------------------------------------------------------------
  // Stock check

  /** Position of the first required material whose stock is below its
      requirement, or None when every material suffices. */
  function FirstShortage(keys: seq<Id>, req: map<Id, real>, txs: seq<Transaction>): (r: Option<nat>)
    requires forall m :: m in keys ==> m in req
    ensures r.Some? ==> r.value < |keys| && QtyOf(txs, keys[r.value]) < req[keys[r.value]]
  {
    if keys == [] then None
    else if QtyOf(txs, keys[0]) < req[keys[0]] then Some(0)
    else match FirstShortage(keys[1..], req, txs)
      case None => None
      case Some(k) => Some(k + 1)
  }

  /** Every material before the first shortage suffices, and there is no
      shortage exactly when every material suffices. */
  lemma {:induction false} FirstShortageSpec(keys: seq<Id>, req: map<Id, real>, txs: seq<Transaction>)
    requires forall m :: m in keys ==> m in req
    ensures var r := FirstShortage(keys, req, txs);
      && (r.Some? ==> forall j :: 0 <= j < r.value ==> QtyOf(txs, keys[j]) >= req[keys[j]])
      && (r.None? <==> forall j :: 0 <= j < |keys| ==> QtyOf(txs, keys[j]) >= req[keys[j]])
  {
    if keys != [] {
      var tail := keys[1..];
      assert forall m :: m in tail ==> m in keys;
      FirstShortageSpec(tail, req, txs);
      assert forall j :: 0 < j < |keys| ==> keys[j] == tail[j - 1];
    }
  }

  /** The verification loop: stops at the first material whose available
      stock (0 when it has no rows) is below the requirement. */
  method CheckStock(keys: seq<Id>, req: map<Id, real>, levels: map<Id, StockLevel>, ghost txs: seq<Transaction>)
    returns (shortage: Option<nat>)
    requires forall m :: m in keys ==> m in req
    requires forall m :: m in levels <==> CountOf(txs, m) > 0
    requires forall m :: m in levels ==> levels[m].qty == QtyOf(txs, m)
    ensures shortage == FirstShortage(keys, req, txs)
  {
    FirstShortageSpec(keys, req, txs);
    var i := 0;
    while i < |keys|
      invariant 0 <= i <= |keys|
      invariant forall j :: 0 <= j < i ==> QtyOf(txs, keys[j]) >= req[keys[j]]
    {
      var available := StockOrZero(levels, keys[i]);
      StockOrZeroIsQty(txs, levels, keys[i]);
      if available < req[keys[i]] {
        return Some(i);
      }
      i := i + 1;
    }
    return None;
  }

  // ---------------------------------------------------------------------
  // Rows written by a successful completion

  /** Every consumed material has ledger rows and a non-zero stock, so its
      average cost exists. */
  predicate CostBasisDefined(txs: seq<Transaction>, keys: seq<Id>)
  {
    forall m :: m in keys ==> CountOf(txs, m) > 0 && QtyOf(txs, m) != 0.0
  }

  /** Cost basis of a consumption: total cost over total quantity of the
      material's rows before the completion. */
  function UnitCostAt(txs: seq<Transaction>, m: Id): real
    requires CountOf(txs, m) > 0 ==> QtyOf(txs, m) != 0.0
  {
    if CountOf(txs, m) > 0 then ValueOf(txs, m) / QtyOf(txs, m) else 0.0
  }

  /** One consumption row per required material, in key order; ids are
      drawn two per material (the second goes to the usage row). */
  function ConsumptionRows(keys: seq<Id>, req: map<Id, real>, txs: seq<Transaction>,
                           orderId: Id, firstId: Id, now: Time): (r: seq<Transaction>)
    requires forall m :: m in keys ==> m in req
    requires CostBasisDefined(txs, keys)
  {
    if keys == [] then []
    else
      var n := |keys| - 1;
      var m := keys[n];
      ConsumptionRows(keys[..n], req, txs, orderId, firstId, now)
        + [Transaction(firstId + 2 * n, m, Consumption, -req[m], UnitCostAt(txs, m), Some(orderId), now)]
  }

  /** One usage row per required material, mirroring its consumption row. */
  function UsageRows(keys: seq<Id>, req: map<Id, real>, txs: seq<Transaction>,
                     orderId: Id, firstId: Id, now: Time): (r: seq<MaterialUsage>)
    requires forall m :: m in keys ==> m in req
    requires CostBasisDefined(txs, keys)
  {
    if keys == [] then []
    else
      var n := |keys| - 1;
      var m := keys[n];
      UsageRows(keys[..n], req, txs, orderId, firstId, now)
        + [MaterialUsage(firstId + 2 * n + 1, orderId, m, req[m], UnitCostAt(txs, m), now)]
  }

  /** The j-th consumption row is for the j-th key, carries minus its
      requirement at its cost basis, and takes the (2j)-th fresh id. */
  lemma {:induction false} ConsumptionRowsShape(keys: seq<Id>, req: map<Id, real>, txs: seq<Transaction>,
                                                orderId: Id, firstId: Id, now: Time)
    requires forall m :: m in keys ==> m in req
    requires CostBasisDefined(txs, keys)
    ensures var r := ConsumptionRows(keys, req, txs, orderId, firstId, now);
      && |r| == |keys|
      && forall j :: 0 <= j < |keys| ==>
           r[j] == Transaction(firstId + 2 * j, keys[j], Consumption, -req[keys[j]],
                               UnitCostAt(txs, keys[j]), Some(orderId), now)
  {
    if keys != [] {
      var n := |keys| - 1;
      ConsumptionRowsShape(keys[..n], req, txs, orderId, firstId, now);
    }
  }

  /** The j-th usage row is for the j-th key, carries its requirement at its
      cost basis, and takes the (2j+1)-th fresh id. */
  lemma {:induction false} UsageRowsShape(keys: seq<Id>, req: map<Id, real>, txs: seq<Transaction>,
                                          orderId: Id, firstId: Id, now: Time)
    requires forall m :: m in keys ==> m in req
    requires CostBasisDefined(txs, keys)
    ensures var r := UsageRows(keys, req, txs, orderId, firstId, now);
      && |r| == |keys|
      && forall j :: 0 <= j < |keys| ==>
           r[j] == MaterialUsage(firstId + 2 * j + 1, orderId, keys[j], req[keys[j]],
                                 UnitCostAt(txs, keys[j]), now)
  {
    if keys != [] {
      var n := |keys| - 1;
      UsageRowsShape(keys[..n], req, txs, orderId, firstId, now);
    }
  }

  /** Extending the keys by one appends that key's consumption and usage
      rows. */
  lemma RowsStep(keys: seq<Id>, req: map<Id, real>, txs: seq<Transaction>,
                 orderId: Id, firstId: Id, now: Time, j: nat)
    requires forall m :: m in keys ==> m in req
    requires CostBasisDefined(txs, keys)
    requires j < |keys|
    ensures CostBasisDefined(txs, keys[..j]) && CostBasisDefined(txs, keys[..j + 1])
    ensures ConsumptionRows(keys[..j + 1], req, txs, orderId, firstId, now)
      == ConsumptionRows(keys[..j], req, txs, orderId, firstId, now)
         + [Transaction(firstId + 2 * j, keys[j], Consumption, -req[keys[j]],
                        UnitCostAt(txs, keys[j]), Some(orderId), now)]
    ensures UsageRows(keys[..j + 1], req, txs, orderId, firstId, now)
      == UsageRows(keys[..j], req, txs, orderId, firstId, now)
         + [MaterialUsage(firstId + 2 * j + 1, orderId, keys[j], req[keys[j]],
                          UnitCostAt(txs, keys[j]), now)]
  {
    assert keys[..j + 1][..j] == keys[..j];
    assert forall m :: m in keys[..j + 1] ==> m in keys;
  }

  /** Stock a material is expected to have after the completion: its stock
      before, less its requirement (0 when it is not required). */
  function StockAfter(txs: seq<Transaction>, req: map<Id, real>, m: Id): real
  {
    QtyOf(txs, m) - (if m in req then req[m] else 0.0)
  }

  predicate LowAfter(txs: seq<Transaction>, req: map<Id, real>, mat: RawMaterial)
  {
    StockAfter(txs, req, mat.id) <= mat.reorderPoint
  }

  /** The materials, in store order, that end at or below their reorder point. */
  function LowMaterials(materials: seq<RawMaterial>, txs: seq<Transaction>, req: map<Id, real>): seq<RawMaterial>
  {
    if materials == [] then []
    else
      var n := |materials| - 1;
      LowMaterials(materials[..n], txs, req)
        + (if LowAfter(txs, req, materials[n]) then [materials[n]] else [])
  }

  /** One high-severity low-stock alert per low material, checked over
      every raw material (not only the consumed ones), one fresh id each. */
  function LowStockAlerts(materials: seq<RawMaterial>, txs: seq<Transaction>, req: map<Id, real>,
                          firstId: Id, now: Time): seq<Alert>
  {
    if materials == [] then []
    else
      var n := |materials| - 1;
      var prev := LowStockAlerts(materials[..n], txs, req, firstId, now);
      if LowAfter(txs, req, materials[n])
      then prev + [Alert(firstId + |prev|, LowStock, High, Some(materials[n].id), now)]
      else prev
  }

  /** The low materials are exactly the listed materials that end at or
      below their reorder point. */
  lemma {:induction false} LowMaterialsSpec(materials: seq<RawMaterial>, txs: seq<Transaction>, req: map<Id, real>)
    ensures forall mat :: mat in LowMaterials(materials, txs, req) <==> mat in materials && LowAfter(txs, req, mat)
    ensures |LowMaterials(materials, txs, req)| <= |materials|
  {
    if materials != [] {
      var n := |materials| - 1;
      LowMaterialsSpec(materials[..n], txs, req);
      assert materials == materials[..n] + [materials[n]];
    }
  }

  /** The j-th alert is for the j-th low material and carries the j-th
      fresh id. */
  lemma {:induction false} LowStockAlertsShape(materials: seq<RawMaterial>, txs: seq<Transaction>,
                                               req: map<Id, real>, firstId: Id, now: Time)
    ensures var r := LowStockAlerts(materials, txs, req, firstId, now);
      var low := LowMaterials(materials, txs, req);
      && |r| == |low|
      && forall j :: 0 <= j < |r| ==> r[j] == Alert(firstId + j, LowStock, High, Some(low[j].id), now)
  {
    if materials != [] {
      var n := |materials| - 1;
      LowStockAlertsShape(materials[..n], txs, req, firstId, now);
    }
  }

  /** Extending the material list by one adds at most that material's
      alert, with the next id. */
  lemma LowStockAlertsStep(materials: seq<RawMaterial>, k: nat, txs: seq<Transaction>,
                           req: map<Id, real>, firstId: Id, now: Time)
    requires k < |materials|
    ensures var prev := LowStockAlerts(materials[..k], txs, req, firstId, now);
      LowStockAlerts(materials[..k + 1], txs, req, firstId, now)
        == if LowAfter(txs, req, materials[k])
           then prev + [Alert(firstId + |prev|, LowStock, High, Some(materials[k].id), now)]
           else prev
  {
    assert materials[..k + 1][..k] == materials[..k];
  }

  // ---------------------------------------------------------------------
  // What a completion does to the ledger

  /** The consumption rows hold exactly one row per required material,
      carrying minus its requirement. */
  lemma {:induction false} ConsumptionRowCount(keys: seq<Id>, req: map<Id, real>, txs: seq<Transaction>,
                                               orderId: Id, firstId: Id, now: Time, m: Id)
    requires forall x :: x in keys ==> x in req
    requires CostBasisDefined(txs, keys)
    requires Distinct(keys)
    ensures CountOf(ConsumptionRows(keys, req, txs, orderId, firstId, now), m) == if m in keys then 1 else 0
    ensures QtyOf(ConsumptionRows(keys, req, txs, orderId, firstId, now), m) == if m in keys then -req[m] else 0.0
  {
    if keys != [] {
      var n := |keys| - 1;
      var prev := ConsumptionRows(keys[..n], req, txs, orderId, firstId, now);
      var row := Transaction(firstId + 2 * n, keys[n], Consumption, -req[keys[n]],
                             UnitCostAt(txs, keys[n]), Some(orderId), now);
      assert ConsumptionRows(keys, req, txs, orderId, firstId, now) == prev + [row];
      ConsumptionRowCount(keys[..n], req, txs, orderId, firstId, now, m);
      FoldSnoc(prev, row, m);
      assert keys == keys[..n] + [keys[n]];
      if m == keys[n] {
        assert m !in keys[..n];
      }
    }
  }

  /** The consumption rows value each material at minus its requirement
      times its cost basis. */
  lemma {:induction false} ConsumptionRowValue(keys: seq<Id>, req: map<Id, real>, txs: seq<Transaction>,
                                               orderId: Id, firstId: Id, now: Time, m: Id)
    requires forall x :: x in keys ==> x in req
    requires CostBasisDefined(txs, keys)
    requires Distinct(keys)
    requires m in keys
    ensures ValueOf(ConsumptionRows(keys, req, txs, orderId, firstId, now), m) == -req[m] * UnitCostAt(txs, m)
  {
    var n := |keys| - 1;
    var prev := ConsumptionRows(keys[..n], req, txs, orderId, firstId, now);
    var row := Transaction(firstId + 2 * n, keys[n], Consumption, -req[keys[n]],
                           UnitCostAt(txs, keys[n]), Some(orderId), now);
    assert ConsumptionRows(keys, req, txs, orderId, firstId, now) == prev + [row];
    FoldSnoc(prev, row, m);
    assert keys == keys[..n] + [keys[n]];
    if m == keys[n] {
      assert m !in keys[..n];
      ConsumptionRowCount(keys[..n], req, txs, orderId, firstId, now, m);
      NoRowsNoStock(prev, m);
    } else {
      ConsumptionRowValue(keys[..n], req, txs, orderId, firstId, now, m);
    }
  }

  /** Completion lowers the derived stock of each required material by
      exactly its requirement and leaves every other material's stock. */
  lemma StockDropsByRequirement(keys: seq<Id>, req: map<Id, real>, txs: seq<Transaction>,
                                orderId: Id, firstId: Id, now: Time, m: Id)
    requires forall x :: x in keys ==> x in req
    requires CostBasisDefined(txs, keys)
    requires Distinct(keys)
    ensures QtyOf(txs + ConsumptionRows(keys, req, txs, orderId, firstId, now), m)
         == QtyOf(txs, m) - (if m in keys then req[m] else 0.0)
    ensures CountOf(txs + ConsumptionRows(keys, req, txs, orderId, firstId, now), m)
         == CountOf(txs, m) + (if m in keys then 1 else 0)
  {
    FoldAppend(txs, ConsumptionRows(keys, req, txs, orderId, firstId, now), m);
    ConsumptionRowCount(keys, req, txs, orderId, firstId, now, m);
  }

  /** Consumption is booked at the running average, so the weighted-average
      cost of a material that still has stock is the same after the
      completion as before. */
  lemma AverageCostPreserved(keys: seq<Id>, req: map<Id, real>, txs: seq<Transaction>,
                             orderId: Id, firstId: Id, now: Time, m: Id)
    requires forall x :: x in keys ==> x in req
    requires CostBasisDefined(txs, keys)
    requires Distinct(keys)
    requires m in keys && QtyOf(txs, m) > 0.0 && QtyOf(txs, m) - req[m] > 0.0
    ensures var after := txs + ConsumptionRows(keys, req, txs, orderId, firstId, now);
      AvgUnitCost(QtyOf(after, m), ValueOf(after, m)) == AvgUnitCost(QtyOf(txs, m), ValueOf(txs, m))
  {
    ConsumedTotals(keys, req, txs, orderId, firstId, now, m);
    AverageAfterConsumption(txs, txs + ConsumptionRows(keys, req, txs, orderId, firstId, now), m, req);
  }

  /** A ledger that books req[m] units of m out at m's cost basis keeps
      m's average cost while its stock stays positive. */
  lemma AverageAfterConsumption(txs: seq<Transaction>, after: seq<Transaction>, m: Id, req: map<Id, real>)
    requires m in req
    requires CountOf(txs, m) > 0 && QtyOf(txs, m) > 0.0 && QtyOf(txs, m) - req[m] > 0.0
    requires QtyOf(after, m) == QtyOf(txs, m) - req[m]
    requires ValueOf(after, m) == ValueOf(txs, m) - Scaled(req[m], UnitCostAt(txs, m))
    ensures AvgUnitCost(QtyOf(after, m), ValueOf(after, m)) == AvgUnitCost(QtyOf(txs, m), ValueOf(txs, m))
  {
    UnitCostTimesQty(txs, m);
    AverageArithmetic(QtyOf(txs, m), ValueOf(txs, m), req[m], UnitCostAt(txs, m), QtyOf(after, m), ValueOf(after, m));
  }

  /** Quantity and value of a consumed material after the completion's rows. */
  lemma ConsumedTotals(keys: seq<Id>, req: map<Id, real>, txs: seq<Transaction>,
                       orderId: Id, firstId: Id, now: Time, m: Id)
    requires forall x :: x in keys ==> x in req
    requires CostBasisDefined(txs, keys)
    requires Distinct(keys)
    requires m in keys
    ensures var after := txs + ConsumptionRows(keys, req, txs, orderId, firstId, now);
      && QtyOf(after, m) == QtyOf(txs, m) - req[m]
      && ValueOf(after, m) == ValueOf(txs, m) - Scaled(req[m], UnitCostAt(txs, m))
  {
    var rows := ConsumptionRows(keys, req, txs, orderId, firstId, now);
    FoldAppend(txs, rows, m);
    ConsumptionRowCount(keys, req, txs, orderId, firstId, now, m);
    ConsumptionRowValue(keys, req, txs, orderId, firstId, now, m);
  }

  /** The cost basis times the stock is the book value. */
  lemma UnitCostTimesQty(txs: seq<Transaction>, m: Id)
    requires CountOf(txs, m) > 0 && QtyOf(txs, m) != 0.0
    ensures Scaled(QtyOf(txs, m), UnitCostAt(txs, m)) == ValueOf(txs, m)
  {
  }

  /** Removing r units valued at the average v/q leaves the average v/q. */
  lemma AverageArithmetic(q: real, v: real, r: real, c: real, qa: real, va: real)
    requires q > 0.0 && qa == q - r && qa > 0.0 && Scaled(q, c) == v && va == v - Scaled(r, c)
    ensures AvgUnitCost(qa, va) == AvgUnitCost(q, v)
  {
    assert va == c * qa;
  }

  /** Usage rows mirror the consumption rows one to one: same material,
      same quantity (positive here, negative in the ledger), same unit cost,
      and both tagged with the order. */
  lemma UsageMirrorsConsumption(keys: seq<Id>, req: map<Id, real>, txs: seq<Transaction>,
                                orderId: Id, firstId: Id, now: Time, j: nat)
    requires forall x :: x in keys ==> x in req
    requires CostBasisDefined(txs, keys)
    requires j < |keys|
    ensures |ConsumptionRows(keys, req, txs, orderId, firstId, now)| == |keys|
    ensures |UsageRows(keys, req, txs, orderId, firstId, now)| == |keys|
    ensures var c := ConsumptionRows(keys, req, txs, orderId, firstId, now)[j];
      var u := UsageRows(keys, req, txs, orderId, firstId, now)[j];
      && c.txType == Consumption
      && u.rawMaterialId == c.rawMaterialId == keys[j]
      && u.qtyUsed == -c.qty == req[keys[j]]
      && u.unitCost == c.unitCost
      && c.relatedOrderId == Some(orderId) && u.productionOrderId == orderId
      && u.id != c.id
  {
    ConsumptionRowsShape(keys, req, txs, orderId, firstId, now);
    UsageRowsShape(keys, req, txs, orderId, firstId, now);
  }

  /** Every low-stock alert of a completion is high severity, and a raw
      material gets one exactly when its stock after the completion is at or
      below its reorder point. */
  lemma LowStockAlertsSpec(materials: seq<RawMaterial>, txs: seq<Transaction>, req: map<Id, real>,
                           firstId: Id, now: Time, mat: RawMaterial)
    requires mat in materials
    requires forall i, j :: 0 <= i < j < |materials| ==> materials[i].id != materials[j].id
    ensures var alerts := LowStockAlerts(materials, txs, req, firstId, now);
      && (forall a :: a in alerts ==> a.alertType == LowStock && a.severity == High && a.materialId.Some?)
      && (LowAfter(txs, req, mat) <==> exists a :: a in alerts && a.materialId == Some(mat.id))
  {
    var alerts := LowStockAlerts(materials, txs, req, firstId, now);
    var low := LowMaterials(materials, txs, req);
    LowMaterialsSpec(materials, txs, req);
    LowStockAlertsShape(materials, txs, req, firstId, now);
    if LowAfter(txs, req, mat) {
      var j :| 0 <= j < |low| && low[j] == mat;
      assert alerts[j].materialId == Some(mat.id);
    }
    if exists a :: a in alerts && a.materialId == Some(mat.id) {
      var a :| a in alerts && a.materialId == Some(mat.id);
      var j :| 0 <= j < |alerts| && alerts[j] == a;
      var other := low[j];
      assert other in low;
      assert other in materials && other.id == mat.id && LowAfter(txs, req, other);
      var p :| 0 <= p < |materials| && materials[p] == other;
      var q :| 0 <= q < |materials| && materials[q] == mat;
      assert p == q;
    }
  }
}

/** The inventory ledger: stock, value and weighted-average cost of each raw
    material are never stored; they are folded out of the append-only list of
    signed transactions on every request. */
module Ledger {
  import opened Domain

  /** The running totals the fold keeps per material. */
  datatype StockLevel = StockLevel(qty: real, value: real, count: nat)

  // ---------------------------------------------------------------------
  // Specification of the fold, one material at a time, by the ledger's
  // last row (the fold runs front to back).

  /** Net signed quantity of material m: the sum of its rows' qty. */
  function QtyOf(txs: seq<Transaction>, m: Id): real
  {
    if txs == [] then 0.0
    else
      var t := txs[|txs| - 1];
      QtyOf(txs[..|txs| - 1], m) + (if t.rawMaterialId == m then t.qty else 0.0)
  }

  /** Book value of material m: the sum of its rows' qty * unit cost. */
  function ValueOf(txs: seq<Transaction>, m: Id): real
  {
    if txs == [] then 0.0
    else
      var t := txs[|txs| - 1];
      ValueOf(txs[..|txs| - 1], m) + (if t.rawMaterialId == m then t.qty * t.unitCost else 0.0)
  }

  /** Number of ledger rows of material m. */
  function CountOf(txs: seq<Transaction>, m: Id): nat
  {
    if txs == [] then 0
    else
      var t := txs[|txs| - 1];
      CountOf(txs[..|txs| - 1], m) + (if t.rawMaterialId == m then 1 else 0)
  }

  /** Materials in the order of their first ledger row (the key order of the
      fold's dictionary). */
  function SeenMaterials(txs: seq<Transaction>): seq<Id>
  {
    if txs == [] then []
    else
      var prev := SeenMaterials(txs[..|txs| - 1]);
      var m := txs[|txs| - 1].rawMaterialId;
      if m in prev then prev else prev + [m]
  }

  predicate Distinct(ids: seq<Id>)
  {
    forall i, j :: 0 <= i < j < |ids| ==> ids[i] != ids[j]
  }

  /** Weighted-average unit cost: value over quantity while stock is
      positive, 0 otherwise. */
  function AvgUnitCost(qty: real, value: real): (r: real)
    ensures qty <= 0.0 ==> r == 0.0
    ensures qty > 0.0 && value >= 0.0 ==> r >= 0.0
  {
    if qty > 0.0 then value / qty else 0.0
  }

  /** With positive stock, average cost times stock is the book value. */
  lemma AvgTimesQty(qty: real, value: real)
    requires qty > 0.0
    ensures AvgUnitCost(qty, value) * qty == value
  {
  }

  // ---------------------------------------------------------------------
  // Facts about the specification

  /** The seen list holds each material with at least one row, once. */
  lemma {:induction false} SeenMaterialsSpec(txs: seq<Transaction>)
    ensures Distinct(SeenMaterials(txs))
    ensures forall m :: m in SeenMaterials(txs) <==> CountOf(txs, m) > 0
  {
    if txs != [] {
      SeenMaterialsSpec(txs[..|txs| - 1]);
    }
  }

  /** A material without rows has no stock and no value. */
  lemma {:induction false} NoRowsNoStock(txs: seq<Transaction>, m: Id)
    requires CountOf(txs, m) == 0
    ensures QtyOf(txs, m) == 0.0 && ValueOf(txs, m) == 0.0
  {
    if txs != [] {
      NoRowsNoStock(txs[..|txs| - 1], m);
    }
  }

  /** Appending to the ledger adds the new rows' totals. */
  lemma {:induction false} FoldAppend(s: seq<Transaction>, t: seq<Transaction>, m: Id)
    ensures QtyOf(s + t, m) == QtyOf(s, m) + QtyOf(t, m)
    ensures ValueOf(s + t, m) == ValueOf(s, m) + ValueOf(t, m)
    ensures CountOf(s + t, m) == CountOf(s, m) + CountOf(t, m)
  {
    if t == [] {
      assert s + t == s;
    } else {
      var u := s + t;
      assert u[..|u| - 1] == s + t[..|t| - 1];
      FoldAppend(s, t[..|t| - 1], m);
    }
  }

  /** Appending one row changes only the totals of that row's material. */
  lemma FoldSnoc(txs: seq<Transaction>, t: Transaction, m: Id)
    ensures QtyOf(txs + [t], m) == QtyOf(txs, m) + (if t.rawMaterialId == m then t.qty else 0.0)
    ensures ValueOf(txs + [t], m) == ValueOf(txs, m) + (if t.rawMaterialId == m then t.qty * t.unitCost else 0.0)
    ensures CountOf(txs + [t], m) == CountOf(txs, m) + (if t.rawMaterialId == m then 1 else 0)
  {
    assert (txs + [t])[..|txs|] == txs;
  }

  // ---------------------------------------------------------------------
  // The fold itself

  /** One pass over the ledger, creating a zero entry for a material at its
      first row and then adding qty, qty * unit_cost and 1 per row. */
  method FoldStock(txs: seq<Transaction>) returns (levels: map<Id, StockLevel>, seen: seq<Id>)
    ensures seen == SeenMaterials(txs)
    ensures forall m :: m in levels <==> CountOf(txs, m) > 0
    ensures forall m :: m in levels ==>
      levels[m] == StockLevel(QtyOf(txs, m), ValueOf(txs, m), CountOf(txs, m))
  {
    levels, seen := map[], [];
    var i := 0;
    while i < |txs|
      invariant 0 <= i <= |txs|
      invariant seen == SeenMaterials(txs[..i])
      invariant forall m :: m in levels <==> m in seen
      invariant forall m :: m in levels <==> CountOf(txs[..i], m) > 0
      invariant forall m :: m in levels ==>
        levels[m] == StockLevel(QtyOf(txs[..i], m), ValueOf(txs[..i], m), CountOf(txs[..i], m))
    {
      var tx := txs[i];
      assert txs[..i + 1][..i] == txs[..i];
      assert txs[..i + 1] == txs[..i] + [tx];
      forall m {
        FoldSnoc(txs[..i], tx, m);
      }
      if tx.rawMaterialId !in levels {
        NoRowsNoStock(txs[..i], tx.rawMaterialId);
        levels := levels[tx.rawMaterialId := StockLevel(0.0, 0.0, 0)];
        seen := seen + [tx.rawMaterialId];
      }
      var cur := levels[tx.rawMaterialId];
      levels := levels[tx.rawMaterialId :=
        StockLevel(cur.qty + tx.qty, cur.value + tx.qty * tx.unitCost, cur.count + 1)];
      i := i + 1;
    }
    assert txs[..i] == txs;
  }

  /** Stock of a material as the handlers read it from the fold: absent
      entries count as 0. */
  function StockOrZero(levels: map<Id, StockLevel>, m: Id): real
  {
    if m in levels then levels[m].qty else 0.0
  }

  /** Reading the fold's result, with the zero default, gives the ledger sum
      for every material, transacted or not. */
  lemma StockOrZeroIsQty(txs: seq<Transaction>, levels: map<Id, StockLevel>, m: Id)
    requires forall x :: x in levels <==> CountOf(txs, x) > 0
    requires forall x :: x in levels ==> levels[x].qty == QtyOf(txs, x)
    ensures StockOrZero(levels, m) == QtyOf(txs, m)
  {
    if m !in levels {
      NoRowsNoStock(txs, m);
    }
  }

  // ---------------------------------------------------------------------
  // The inventory view

  datatype InventoryRow = InventoryRow(
    materialId: Id, totalQty: real, totalValue: real, transactionsCount: nat,
    materialName: Option<string>, materialUnit: Option<string>,
    reorderPoint: real, avgUnitCost: real, needsReorder: bool)

  /** The first material record with the id, as a list search finds it. */
  function FindMaterial(materials: seq<RawMaterial>, id: Id): (r: Option<RawMaterial>)
    ensures r.Some? ==> r.value in materials && r.value.id == id
    ensures r.None? ==> forall k :: 0 <= k < |materials| ==> materials[k].id != id
  {
    if materials == [] then None
    else if materials[0].id == id then Some(materials[0])
    else FindMaterial(materials[1..], id)
  }

  /** Reorder point of a material; 0 when the record is missing. */
  function ReorderPointOrZero(materials: seq<RawMaterial>, id: Id): real
  {
    match FindMaterial(materials, id)
    case Some(m) => m.reorderPoint
    case None => 0.0
  }

  /** The row's name and unit are those of the material record with its
      id, and both are absent when there is no such record. */
  predicate NamedAfterRecord(r: InventoryRow, materials: seq<RawMaterial>)
  {
    match FindMaterial(materials, r.materialId)
    case Some(m) => r.materialName == Some(m.name) && r.materialUnit == Some(m.unit)
    case None => r.materialName.None? && r.materialUnit.None?
  }

  function EnrichRow(id: Id, level: StockLevel, materials: seq<RawMaterial>): InventoryRow
  {
    var mat := FindMaterial(materials, id);
    var rp := ReorderPointOrZero(materials, id);
    InventoryRow(
      id, level.qty, level.value, level.count,
      if mat.Some? then Some(mat.value.name) else None,
      if mat.Some? then Some(mat.value.unit) else None,
      rp, AvgUnitCost(level.qty, level.value), level.qty <= rp)
  }

  /** GET /inventory: one row per material that has ledger rows, in order of
      first appearance, with its totals, average cost and reorder flag. */
  method Inventory(txs: seq<Transaction>, materials: seq<RawMaterial>) returns (rows: seq<InventoryRow>)
    ensures |rows| == |SeenMaterials(txs)|
    ensures forall k :: 0 <= k < |rows| ==>
      var r := rows[k];
      && r.materialId == SeenMaterials(txs)[k]
      && r.transactionsCount == CountOf(txs, r.materialId) > 0
      && r.totalQty == QtyOf(txs, r.materialId)
      && r.totalValue == ValueOf(txs, r.materialId)
      && NamedAfterRecord(r, materials)
      && r.reorderPoint == ReorderPointOrZero(materials, r.materialId)
      && r.avgUnitCost == AvgUnitCost(r.totalQty, r.totalValue)
      && (r.needsReorder <==> r.totalQty <= r.reorderPoint)
  {
    var levels, seen := FoldStock(txs);
    SeenMaterialsSpec(txs);
    rows := seq(|seen|, k requires 0 <= k < |seen| => EnrichRow(seen[k], levels[seen[k]], materials));
  }

  /** Every transacted material appears in the inventory view exactly once,
      and nothing else does. */
  lemma InventoryCoversTransacted(txs: seq<Transaction>, m: Id)
    ensures m in SeenMaterials(txs) <==> CountOf(txs, m) > 0
    ensures Distinct(SeenMaterials(txs))
  {
    SeenMaterialsSpec(txs);
  }

  /** Worked example: 1000 units bought at 5, then 100 consumed at the
      average cost 5, leave 900 units still costed at 5. */
  lemma WeightedAverageExample(m: Id)
    ensures var txs := [
      Transaction(0, m, Purchase, 1000.0, 5.0, None, 0),
      Transaction(1, m, Consumption, -100.0, 5.0, Some(7), 1)];
      QtyOf(txs, m) == 900.0 && AvgUnitCost(QtyOf(txs, m), ValueOf(txs, m)) == 5.0
  {
    var t0 := Transaction(0, m, Purchase, 1000.0, 5.0, None, 0);
    var t1 := Transaction(1, m, Consumption, -100.0, 5.0, Some(7), 1);
    var txs := [t0, t1];
    assert txs[..1] == [t0];
    assert [t0][..0] == [];
    assert QtyOf([t0], m) == 1000.0 && ValueOf([t0], m) == 5000.0;
    assert QtyOf(txs, m) == 900.0;
    assert ValueOf(txs, m) == 4500.0;
  }
}

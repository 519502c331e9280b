/** The sign rule the inventory screen applies to the entered quantity
    before posting a ledger row: only an adjustment may carry a negative
    quantity; every other kind is sent as its magnitude. */
module InventoryForm {
  import opened Domain
  import opened Ledger

  function Abs(x: real): (r: real)
    ensures r >= 0.0 && (r == x || r == -x)
  {
    if x < 0.0 then -x else x
  }

  /** The quantity put into the request body for the entered quantity. */
  function SentQty(txType: TxType, qty: real): (r: real)
    ensures Abs(r) == Abs(qty)
    ensures r < 0.0 ==> txType == Adjustment
    ensures txType == Adjustment ==> r == qty
    ensures txType != Adjustment ==> r >= 0.0
  {
    if txType == Adjustment && qty < 0.0 then qty else Abs(qty)
  }

  /** A purchase posted through the screen never lowers the stock of its
      material, and leaves every other material's stock alone. */
  lemma PurchaseNeverLowersStock(txs: seq<Transaction>, id: Id, m: Id, qty: real,
                                 unitCost: real, now: Time, x: Id)
    ensures var t := Transaction(id, m, Purchase, SentQty(Purchase, qty), unitCost, None, now);
      && QtyOf(txs + [t], m) >= QtyOf(txs, m)
      && (x != m ==> QtyOf(txs + [t], x) == QtyOf(txs, x))
  {
    var t := Transaction(id, m, Purchase, SentQty(Purchase, qty), unitCost, None, now);
    FoldSnoc(txs, t, m);
    FoldSnoc(txs, t, x);
  }
}

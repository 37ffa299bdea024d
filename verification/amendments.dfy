/**
 * The handlers that change an order after it was saved:
 * `add-to-existing-order` (an additive merge), `update-order` (a
 * replace-all edit) and `confirm-delete-order` (archive, then delete).
 */
module Amendments {
  import opened Wrappers
  import opened Catalog
  import opened Billing
  import opened Tables
  import opened Persistence

  /** The order's money columns with `delta` added, as the merge's
      `UPDATE Orders SET price = price + ?, ...` does. */
  function Bump(h: OrderHeader, delta: Totals): (r: OrderHeader)
    ensures r.price == h.price + delta.price && r.sgst == h.sgst + delta.sgst
    ensures r.cgst == h.cgst + delta.cgst && r.tax == h.tax + delta.tax
    ensures r.(price := h.price, sgst := h.sgst, cgst := h.cgst, tax := h.tax) == h
  {
    h.(price := h.price + delta.price, sgst := h.sgst + delta.sgst,
       cgst := h.cgst + delta.cgst, tax := h.tax + delta.tax)
  }

  /** `add-to-existing-order` (main.js:1358-1407). Each entry is looked up
      and upserted in turn; an unknown id has no row, so reading its cost
      throws after the earlier entries' upserts were issued and before the
      totals update. With every id known, the new entries' catalog totals
      are added to the order's, if the order exists. */
  function MergeIntoOrder(s: Store, req: MergeRequest): (r: (Store, Result<BillNo, FoodId>))
    ensures r.1.Failure? <==> !Known(s.catalog, req.items)
    ensures r.1.Failure? ==>
              var k := FirstUnknown(s.catalog, req.items);
              && r.1.error == req.items[k].foodId
              && r.0 == s.(details := UpsertRows(s.details, req.orderId, req.items[..k]))
    ensures r.1.Success? ==>
              && r.1.value == req.orderId
              && r.0.details == UpsertRows(s.details, req.orderId, req.items)
              && (req.orderId in s.orders ==>
                    r.0.orders == s.orders[req.orderId := Bump(s.orders[req.orderId],
                                                               CatalogTotals(s.catalog, req.items))])
              && (req.orderId !in s.orders ==> r.0.orders == s.orders)
              && r.0.(orders := s.orders, details := s.details) == s
  {
    var acc := Accumulate(s.catalog, req.items);
    match acc
    case Failure(fid) =>
      var k := FirstUnknown(s.catalog, req.items);
      (s.(details := UpsertRows(s.details, req.orderId, req.items[..k])), Failure(fid))
    case Success(t) =>
      var d := UpsertRows(s.details, req.orderId, req.items);
      var orders := if req.orderId in s.orders
                    then s.orders[req.orderId := Bump(s.orders[req.orderId], t)]
                    else s.orders;
      (s.(details := d, orders := orders), Success(req.orderId))
  }

  /** Merging the same payload twice adds its totals twice and its
      quantities twice: the merge is additive. */
  lemma MergeTwiceDoubles(s: Store, req: MergeRequest)
    requires Known(s.catalog, req.items) && req.orderId in s.orders
    ensures var twice := MergeIntoOrder(MergeIntoOrder(s, req).0, req).0;
            var t := CatalogTotals(s.catalog, req.items);
            var h := s.orders[req.orderId];
            && twice.orders[req.orderId].price == h.price + 2.0 * t.price
            && twice.orders[req.orderId].sgst == h.sgst + 2.0 * t.sgst
            && twice.orders[req.orderId].cgst == h.cgst + 2.0 * t.cgst
            && twice.orders[req.orderId].tax == h.tax + 2.0 * t.tax
            && forall i :: 0 <= i < |req.items| ==>
                 var key := DetailKey(req.orderId, req.items[i].foodId);
                 twice.details[key]
                 == (if key in s.details then s.details[key] else 0) + 2 * QtySum(req.items, req.items[i].foodId)
  {
  }

  /** Hence merging is not idempotent whenever the payload is worth
      something. */
  lemma MergeNotIdempotent(s: Store, req: MergeRequest)
    requires Known(s.catalog, req.items) && req.orderId in s.orders
    requires CostSum(s.catalog, req.items) != 0.0
    ensures MergeIntoOrder(MergeIntoOrder(s, req).0, req).0 != MergeIntoOrder(s, req).0
  {
  }

  /** What the edit's `SUM(...)` over the new details joined with FoodItem
      yields (main.js:1911-1919): Σ cost × quantity and, for the two tax
      columns, Σ rate × quantity; entries whose food id has no catalog row
      drop out of the join. */
  /** The FoodItem column an edit multiplies by the quantity. */
  datatype EditColumn = CostColumn | SgstColumn | CgstColumn

  function EditSum(cat: Catalog, items: seq<ItemQty>, column: EditColumn): real
  {
    if items == [] then 0.0
    else
      var rest := EditSum(cat, items[1..], column);
      if items[0].foodId !in cat then rest
      else
        var f := cat[items[0].foodId];
        (match column
         case CostColumn => f.cost
         case SgstColumn => f.sgst
         case CgstColumn => f.cgst) * items[0].quantity as real + rest
  }

  function EditCost(cat: Catalog, items: seq<ItemQty>): real
  {
    EditSum(cat, items, CostColumn)
  }

  /** Σ cost × quantity × rate / 100 over the entries the catalog knows:
      the save-bill formula over the rows the edit's join keeps. */
  function EditLevy(cat: Catalog, items: seq<ItemQty>, l: Levy): real
  {
    if items == [] then 0.0
    else
      var rest := EditLevy(cat, items[1..], l);
      if items[0].foodId !in cat then rest
      else LineCost(cat, items[0]) * Rate(cat[items[0].foodId], l) / 100.0 + rest
  }

  lemma KnownTail(cat: Catalog, items: seq<ItemQty>)
    requires items != [] && Known(cat, items)
    ensures Known(cat, items[1..])
  {
  }

  /** With every id known, the edit's price is the catalog cost sum. */
  lemma {:induction false} EditCostIsCostSum(cat: Catalog, items: seq<ItemQty>)
    requires Known(cat, items)
    ensures EditCost(cat, items) == CostSum(cat, items)
    decreases |items|
  {
    if items != [] {
      KnownTail(cat, items);
      EditCostIsCostSum(cat, items[1..]);
    }
  }

  /** With every id known, the corrected tax sums are the save-bill ones. */
  lemma {:induction false} EditLevyIsLevySum(cat: Catalog, items: seq<ItemQty>, l: Levy)
    requires Known(cat, items)
    ensures EditLevy(cat, items, l) == LevySum(cat, items, l)
    decreases |items|
  {
    if items != [] {
      KnownTail(cat, items);
      EditLevyIsLevySum(cat, items[1..], l);
    }
  }

  /** The totals the edit writes as the source computes them: sgst and cgst
      as Σ rate × quantity, tax as their sum. */
  function EditTotalsAsWritten(cat: Catalog, items: seq<ItemQty>): Totals
  {
    var sg := EditSum(cat, items, SgstColumn);
    var cg := EditSum(cat, items, CgstColumn);
    Totals(EditCost(cat, items), sg, cg, sg + cg)
  }

  /** The totals the edit evidently means to write: those `save-bill`
      computes, over the rows the join keeps. */
  function EditTotals(cat: Catalog, items: seq<ItemQty>): (t: Totals)
    ensures Known(cat, items) ==> t == CatalogTotals(cat, items)
  {
    if Known(cat, items) then
      EditCostIsCostSum(cat, items);
      EditLevyIsLevySum(cat, items, Sgst);
      EditLevyIsLevySum(cat, items, Cgst);
      EditLevyIsLevySum(cat, items, Tax);
      Totals(EditCost(cat, items), EditLevy(cat, items, Sgst), EditLevy(cat, items, Cgst), EditLevy(cat, items, Tax))
    else
      Totals(EditCost(cat, items), EditLevy(cat, items, Sgst), EditLevy(cat, items, Cgst), EditLevy(cat, items, Tax))
  }

  datatype UpdateError = DuplicateItem

  /** An order header with its money columns replaced. */
  function SetTotals(h: OrderHeader, t: Totals): (r: OrderHeader)
    ensures r.price == t.price && r.sgst == t.sgst && r.cgst == t.cgst && r.tax == t.tax
    ensures r.kot == h.kot && r.cashier == h.cashier && r.date == h.date
  {
    h.(price := t.price, sgst := t.sgst, cgst := t.cgst, tax := t.tax)
  }

  /** The steps of `update-order` (main.js:1878-1956) with the recomputed
      totals `t` as a parameter: every detail row of the bill is deleted
      and the new set inserted. A repeated food id makes one insert fail,
      so the edit reports failure with the totals left as they were;
      otherwise the order, if it exists, gets the totals `t`. */
  function ReplaceOrder(s: Store, billno: BillNo, items: seq<ItemQty>, t: Totals): (r: (Store, Result<BillNo, UpdateError>))
    ensures forall k: DetailKey :: k.bill != billno ==> (k in r.0.details <==> k in s.details)
    ensures forall k: DetailKey :: k.bill != billno && k in s.details ==> r.0.details[k] == s.details[k]
    ensures forall k: DetailKey :: k.bill == billno ==>
              (k in r.0.details <==> IndexOfFood(items, k.food).Some?)
    ensures forall k: DetailKey :: k in r.0.details && k.bill == billno ==>
              r.0.details[k] == items[IndexOfFood(items, k.food).value].quantity
    ensures r.1.Failure? <==> !DistinctFoods(items)
    ensures r.1.Failure? ==> r.0.orders == s.orders
    ensures r.1.Success? && billno in s.orders ==> r.0.orders == s.orders[billno := SetTotals(s.orders[billno], t)]
    ensures r.1.Success? && billno !in s.orders ==> r.0.orders == s.orders
    ensures r.0.(orders := s.orders, details := s.details) == s
  {
    var d := InsertRows(DropBill(s.details, billno), billno, items);
    if !DistinctFoods(items) then (s.(details := d), Failure(DuplicateItem))
    else
      var orders := if billno in s.orders then s.orders[billno := SetTotals(s.orders[billno], t)] else s.orders;
      (s.(details := d, orders := orders), Success(billno))
  }

  /** Replacing twice with the same items and totals leaves what replacing
      once leaves. */
  lemma ReplaceIdempotent(s: Store, billno: BillNo, items: seq<ItemQty>, t: Totals)
    ensures var once := ReplaceOrder(s, billno, items, t);
            ReplaceOrder(once.0, billno, items, t) == once
  {
    var once := ReplaceOrder(s, billno, items, t);
    assert DropBill(once.0.details, billno) == DropBill(s.details, billno);
    var twice := ReplaceOrder(once.0, billno, items, t);
    assert twice.0.details == once.0.details;
    if DistinctFoods(items) && billno in s.orders {
      assert SetTotals(SetTotals(s.orders[billno], t), t) == SetTotals(s.orders[billno], t);
      assert twice.0.orders == once.0.orders;
    }
  }

  /** `update-order` as written: price Σ cost × quantity, sgst Σ sgst ×
      quantity, cgst Σ cgst × quantity and tax = sgst + cgst. */
  function UpdateOrderAsWritten(s: Store, billno: BillNo, items: seq<ItemQty>): (r: (Store, Result<BillNo, UpdateError>))
    ensures r.1.Success? && billno in s.orders ==>
              billno in r.0.orders &&
              var h := r.0.orders[billno];
              && h.price == EditCost(s.catalog, items)
              && h.sgst == EditSum(s.catalog, items, SgstColumn)
              && h.cgst == EditSum(s.catalog, items, CgstColumn)
              && h.tax == h.sgst + h.cgst
  {
    ReplaceOrder(s, billno, items, EditTotalsAsWritten(s.catalog, items))
  }

  /** As written, an edit rewrites the tax columns in other units than
      `save-bill`: one item of cost 50 at 2.5% + 2.5% (tax 5%), quantity 2,
      is saved with sgst 2.5 and tax 5, and edited to sgst 5 and tax 10. */
  lemma EditAndSaveTaxDiffer()
    ensures var cat := map[1 := FoodItem("Lassi", 1, 50.0, 2.5, 2.5, 5.0, 1, 1)];
            var items := [ItemQty(1, 2)];
            && LevySum(cat, items, Sgst) == 2.5 && LevySum(cat, items, Tax) == 5.0
            && EditTotalsAsWritten(cat, items).sgst == 5.0
            && EditTotalsAsWritten(cat, items).tax == 10.0
  {
  }

  /** As written, editing twice with the same items leaves exactly what
      editing once leaves, totals included. */
  lemma UpdateAsWrittenIdempotent(s: Store, billno: BillNo, items: seq<ItemQty>)
    ensures var once := UpdateOrderAsWritten(s, billno, items);
            UpdateOrderAsWritten(once.0, billno, items) == once
  {
    ReplaceIdempotent(s, billno, items, EditTotalsAsWritten(s.catalog, items));
  }

  /** `update-order` with the save-bill tax formula: on a catalog that
      knows every item, the order gets exactly the catalog totals of the
      new set. */
  function UpdateOrder(s: Store, billno: BillNo, items: seq<ItemQty>): (r: (Store, Result<BillNo, UpdateError>))
    ensures r.1.Failure? <==> !DistinctFoods(items)
    ensures r.1.Failure? ==> r.0.orders == s.orders
    ensures r.1.Success? && billno in s.orders && Known(s.catalog, items) ==>
              r.0.orders == s.orders[billno := SetTotals(s.orders[billno], CatalogTotals(s.catalog, items))]
    ensures r.0.catalog == s.catalog && r.0.discounts == s.discounts && r.0.held == s.held
  {
    ReplaceOrder(s, billno, items, EditTotals(s.catalog, items))
  }

  /** Editing twice with the same items leaves exactly what editing once
      leaves: unlike the merge, the edit is idempotent. */
  lemma UpdateIdempotent(s: Store, billno: BillNo, items: seq<ItemQty>)
    ensures var once := UpdateOrder(s, billno, items);
            UpdateOrder(once.0, billno, items) == once
  {
    ReplaceIdempotent(s, billno, items, EditTotals(s.catalog, items));
  }

  /** Editing a freshly saved order with the items it was saved with gives
      back the saved sgst, cgst and tax; its price becomes the catalog sum,
      so a discount given at save time is dropped from the price while its
      DiscountedOrders row stays. */
  lemma EditRestoresSavedTaxes(s: Store, req: SaveRequest)
    requires Known(s.catalog, req.items) && DistinctFoods(req.items)
    ensures var saved := SaveBill(s, req);
            var id := s.nextBill;
            var edited := UpdateOrder(saved.0, id, req.items).0;
            && id in edited.orders
            && edited.orders[id].sgst == saved.0.orders[id].sgst
            && edited.orders[id].cgst == saved.0.orders[id].cgst
            && edited.orders[id].tax == saved.0.orders[id].tax
            && edited.orders[id].kot == saved.0.orders[id].kot
            && edited.orders[id].price == CostSum(s.catalog, req.items)
            && edited.discounts == saved.0.discounts
  {
  }

  datatype DeleteError = OrderNotFound

  /** `confirm-delete-order` (main.js:1511-1569): an unknown bill is
      reported and nothing changes. Otherwise the header is archived with
      the reason, each detail row is archived, and then the header and
      the details are deleted. DiscountedOrders is left alone. */
  function ConfirmDeleteOrder(s: Store, billNo: BillNo, reason: string): (r: (Store, Result<BillNo, DeleteError>))
    ensures billNo !in s.orders ==> r == (s, Failure(OrderNotFound))
    ensures billNo in s.orders ==>
              && r.1 == Success(billNo)
              && r.0.orders.Keys == s.orders.Keys - {billNo}
              && (forall b :: b in r.0.orders ==> r.0.orders[b] == s.orders[b])
              && r.0.deleted == s.deleted + [DeletedOrder(billNo, s.orders[billNo], reason)]
              && (forall k :: k in r.0.details <==> k in s.details && k.bill != billNo)
              && (forall k :: k in r.0.details ==> r.0.details[k] == s.details[k])
              && (forall k :: k in s.details && k.bill == billNo ==>
                    k in r.0.deletedDetails && r.0.deletedDetails[k] == s.details[k])
              && (forall k :: k in s.deletedDetails && k.bill != billNo ==>
                    k in r.0.deletedDetails && r.0.deletedDetails[k] == s.deletedDetails[k])
              && (forall k :: k in r.0.deletedDetails <==>
                    k in s.deletedDetails || (k in s.details && k.bill == billNo))
              && r.0.discounts == s.discounts && r.0.held == s.held
              && r.0.heldDetails == s.heldDetails && r.0.catalog == s.catalog
              && r.0.nextBill == s.nextBill && r.0.nextHeld == s.nextHeld
  {
    if billNo !in s.orders then (s, Failure(OrderNotFound))
    else
      var rows := RowsOf(s.details, billNo);
      var archived := s.(deleted := s.deleted + [DeletedOrder(billNo, s.orders[billNo], reason)],
                         deletedDetails := s.deletedDetails + rows);
      (archived.(orders := archived.orders - {billNo}, details := DropBill(archived.details, billNo)),
       Success(billNo))
  }

  /** A bill deletes once: a second confirmation finds no order and
      changes nothing. */
  lemma DeleteIsSingleUse(s: Store, billNo: BillNo, reason: string, again: string)
    ensures var once := ConfirmDeleteOrder(s, billNo, reason).0;
            ConfirmDeleteOrder(once, billNo, again) == (once, Failure(OrderNotFound))
  {
  }
}

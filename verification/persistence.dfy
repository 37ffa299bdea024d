/**
 * The `save-bill`, `hold-bill`, `get-held-order-details` and
 * `delete-held-order` handlers of main.js as transitions on the store, and
 * the renderer's resume flow that chains them.
 */
module Persistence {
  import opened Wrappers
  import opened Catalog
  import opened Billing
  import opened Tables

  /** What `bill-saved` reports back. */
  datatype Saved = Saved(kot: int, orderId: BillNo)

  /** `finalTotalAmount`: the caller's total when positive, else the
      catalog sum (main.js:1204). */
  function FinalTotal(totalAmount: real, calculated: real): real
  {
    if totalAmount > 0.0 then totalAmount else calculated
  }

  /** The DiscountedOrders row for a realised discount (main.js:1240-1247). */
  function DiscountFor(calculated: real, final: real): (d: DiscountRecord)
    requires calculated > final && calculated != 0.0
    ensures d.initialPrice - d.discountAmount == final
    ensures d.discountAmount > 0.0
    ensures d.discountPercentage * calculated == d.discountAmount * 100.0
  {
    var amount := calculated - final;
    DiscountRecord(calculated, amount / calculated * 100.0, amount)
  }

  /** `save-bill` (main.js:1172-1265). An unknown food id aborts before
      anything is written. Otherwise the header gets the next KOT of the
      date, the final total as price and the catalog-derived tax columns;
      one detail row is inserted per item; and a discount row is added
      exactly when the catalog sum exceeds the final total. */
  function SaveBill(s: Store, req: SaveRequest): (r: (Store, Result<Saved, FoodId>))
    ensures r.1.Failure? <==> !Known(s.catalog, req.items)
    ensures r.1.Failure? ==> r.0 == s && r.1.error == req.items[FirstUnknown(s.catalog, req.items)].foodId
    ensures r.1.Success? ==>
              var id := s.nextBill;
              var listed := CostSum(s.catalog, req.items);
              var final := if req.totalAmount > 0.0 then req.totalAmount else listed;
              && r.1.value == Saved(NextKot(s.orders, req.date), id)
              && r.0.orders == s.orders[id := OrderHeader(NextKot(s.orders, req.date), final,
                                            LevySum(s.catalog, req.items, Sgst),
                                            LevySum(s.catalog, req.items, Cgst),
                                            LevySum(s.catalog, req.items, Tax),
                                            req.cashier, req.date)]
              && r.0.details == InsertRows(s.details, id, req.items)
              && (listed > final ==>
                    && r.0.discounts.Keys == s.discounts.Keys + {id}
                    && r.0.discounts[id].initialPrice == listed
                    && r.0.discounts[id].initialPrice - r.0.discounts[id].discountAmount == final
                    && r.0.discounts[id].discountPercentage * listed == r.0.discounts[id].discountAmount * 100.0)
              && (listed <= final ==> r.0.discounts == s.discounts)
              && r.0.nextBill == s.nextBill + 1
              && r.0.held == s.held && r.0.heldDetails == s.heldDetails
              && r.0.catalog == s.catalog && r.0.deleted == s.deleted
              && r.0.deletedDetails == s.deletedDetails && r.0.nextHeld == s.nextHeld
  {
    match Accumulate(s.catalog, req.items)
    case Failure(fid) => (s, Failure(fid))
    case Success(t) =>
      var final := FinalTotal(req.totalAmount, t.price);
      var kot := NextKot(s.orders, req.date);
      var id := s.nextBill;
      var s1 := s.(orders := s.orders[id := OrderHeader(kot, final, t.sgst, t.cgst, t.tax, req.cashier, req.date)],
                   details := InsertRows(s.details, id, req.items),
                   nextBill := s.nextBill + 1);
      var s2 := if t.price > final then s1.(discounts := s1.discounts[id := DiscountFor(t.price, final)]) else s1;
      (s2, Success(Saved(kot, id)))
  }

  /** A save adds at most the new bill's discount row: every earlier
      DiscountedOrders record is still there, unchanged. */
  lemma SaveKeepsDiscounts(s: Store, req: SaveRequest)
    ensures var d := SaveBill(s, req).0.discounts;
            && d.Keys - {s.nextBill} == s.discounts.Keys - {s.nextBill}
            && forall b :: b in s.discounts && b != s.nextBill ==> d[b] == s.discounts[b]
  {
  }

  /** The tax columns of a saved order do not depend on the total the
      renderer sends: two saves differing only in it store the same sgst,
      cgst, tax and KOT. */
  lemma TaxIgnoresCallerTotal(s: Store, req: SaveRequest, other: real)
    requires Known(s.catalog, req.items)
    ensures var a := SaveBill(s, req).0.orders[s.nextBill];
            var b := SaveBill(s, req.(totalAmount := other)).0.orders[s.nextBill];
            a.sgst == b.sgst && a.cgst == b.cgst && a.tax == b.tax && a.kot == b.kot
  {
  }

  /** A total of 0 (a 100% discount, or a reset field) falls back to the
      undiscounted catalog sum, and then no discount row is written. */
  lemma ZeroTotalFallsBack(s: Store, req: SaveRequest)
    requires Known(s.catalog, req.items) && req.totalAmount <= 0.0
    ensures var r := SaveBill(s, req).0;
            r.orders[s.nextBill].price == CostSum(s.catalog, req.items)
            && r.discounts == s.discounts
  {
  }

  /** Saves keep generated ids unique. */
  lemma SaveKeepsValid(s: Store, req: SaveRequest)
    requires Valid(s)
    ensures Valid(SaveBill(s, req).0)
  {
  }

  /** After a save on `date`, the next KOT of that date is one higher. */
  lemma {:induction false} KotIncrements(s: Store, req: SaveRequest)
    requires Valid(s) && Known(s.catalog, req.items)
    ensures NextKot(SaveBill(s, req).0.orders, req.date) == NextKot(s.orders, req.date) + 1
  {
  }

  /** What one successful save reports, and what it leaves for the next one. */
  lemma SaveReports(s: Store, req: SaveRequest)
    requires Known(s.catalog, req.items)
    ensures var (s1, out) := SaveBill(s, req);
            && out == Success(Saved(NextKot(s.orders, req.date), s.nextBill))
            && s1.catalog == s.catalog && s1.nextBill == s.nextBill + 1
  {
  }

  /** Saves one after another through `save`, each reporting its outcome. */
  function SaveAllWith(save: (Store, SaveRequest) -> (Store, Result<Saved, FoodId>),
                       s: Store, reqs: seq<SaveRequest>): (Store, seq<Result<Saved, FoodId>>)
    decreases |reqs|
  {
    if reqs == [] then (s, [])
    else
      var first := save(s, reqs[0]);
      var rest := SaveAllWith(save, first.0, reqs[1..]);
      (rest.0, [first.1] + rest.1)
  }

  /** `save-bill` requests handled one after another. */
  function SaveAll(s: Store, reqs: seq<SaveRequest>): (Store, seq<Result<Saved, FoodId>>)
  {
    SaveAllWith(SaveBill, s, reqs)
  }

  /** What one save must do for a run of saves to number consecutively:
      report the date's next KOT and the next bill number, keep the store
      valid and the catalog as it is, and move both counters on by one. */
  ghost predicate NumbersInTurn(save: (Store, SaveRequest) -> (Store, Result<Saved, FoodId>))
  {
    forall s: Store, req: SaveRequest {:trigger save(s, req)} ::
      Valid(s) && Known(s.catalog, req.items) ==>
        && save(s, req).1 == Success(Saved(NextKot(s.orders, req.date), s.nextBill))
        && Valid(save(s, req).0) && save(s, req).0.catalog == s.catalog
        && save(s, req).0.nextBill == s.nextBill + 1
        && NextKot(save(s, req).0.orders, req.date) == NextKot(s.orders, req.date) + 1
  }

  lemma SaveBillNumbersInTurn()
    ensures NumbersInTurn(SaveBill)
  {
    forall s: Store, req: SaveRequest | Valid(s) && Known(s.catalog, req.items)
      ensures && SaveBill(s, req).1 == Success(Saved(NextKot(s.orders, req.date), s.nextBill))
              && Valid(SaveBill(s, req).0) && SaveBill(s, req).0.catalog == s.catalog
              && SaveBill(s, req).0.nextBill == s.nextBill + 1
              && NextKot(SaveBill(s, req).0.orders, req.date) == NextKot(s.orders, req.date) + 1
    {
      SaveReports(s, req);
      KotIncrements(s, req);
      SaveKeepsValid(s, req);
    }
  }

  lemma {:induction false} SequentialKotsWith(save: (Store, SaveRequest) -> (Store, Result<Saved, FoodId>),
                                              s: Store, reqs: seq<SaveRequest>, date: string)
    requires NumbersInTurn(save) && Valid(s)
    requires forall i :: 0 <= i < |reqs| ==> reqs[i].date == date && Known(s.catalog, reqs[i].items)
    ensures |SaveAllWith(save, s, reqs).1| == |reqs|
    ensures forall i :: 0 <= i < |reqs| ==>
              SaveAllWith(save, s, reqs).1[i] == Success(Saved(NextKot(s.orders, date) + i, s.nextBill + i))
    decreases |reqs|
  {
    if reqs != [] {
      var r := save(s, reqs[0]);
      var rest := reqs[1..];
      assert forall i :: 0 <= i < |rest| ==> rest[i] == reqs[i + 1];
      SequentialKotsWith(save, r.0, rest, date);
      var outs := SaveAllWith(save, r.0, rest).1;
      assert SaveAllWith(save, s, reqs).1 == [r.1] + outs;
      ShiftOutcomes(r.1, outs, NextKot(s.orders, date), s.nextBill);
    }
  }

  /** Sequential saves on one date get consecutive KOT numbers and
      consecutive bill numbers. */
  lemma SequentialKots(s: Store, reqs: seq<SaveRequest>, date: string)
    requires Valid(s)
    requires forall i :: 0 <= i < |reqs| ==> reqs[i].date == date && Known(s.catalog, reqs[i].items)
    ensures |SaveAll(s, reqs).1| == |reqs|
    ensures forall i :: 0 <= i < |reqs| ==>
              SaveAll(s, reqs).1[i] == Success(Saved(NextKot(s.orders, date) + i, s.nextBill + i))
  {
    SaveBillNumbersInTurn();
    SequentialKotsWith(SaveBill, s, reqs, date);
  }

  lemma ShiftOutcomes(first: Result<Saved, FoodId>, outs: seq<Result<Saved, FoodId>>, k: int, n: BillNo)
    requires first == Success(Saved(k, n))
    requires forall i :: 0 <= i < |outs| ==> outs[i] == Success(Saved(k + 1 + i, n + 1 + i))
    ensures forall i :: 0 <= i < |outs| + 1 ==> ([first] + outs)[i] == Success(Saved(k + i, n + i))
  {
  }

  /** On a date with no order yet, sequential saves get KOT 1, 2, 3, ... */
  lemma FirstKotOfDay(s: Store, reqs: seq<SaveRequest>, date: string)
    requires Valid(s) && !HasOrderOn(s.orders, date)
    requires forall i :: 0 <= i < |reqs| ==> reqs[i].date == date && Known(s.catalog, reqs[i].items)
    ensures |SaveAll(s, reqs).1| == |reqs|
    ensures forall i :: 0 <= i < |reqs| ==> SaveAll(s, reqs).1[i] == Success(Saved(i + 1, s.nextBill + i))
  {
    SequentialKots(s, reqs, date);
  }

  /** The HeldOrderDetails rows of a hold, one per payload entry. */
  function HeldRows(heldId: HeldId, items: seq<ItemQty>): (rows: seq<HeldDetail>)
    ensures |rows| == |items|
    ensures forall i :: 0 <= i < |items| ==>
              rows[i] == HeldDetail(heldId, items[i].foodId, items[i].quantity)
  {
    if items == [] then []
    else [HeldDetail(heldId, items[0].foodId, items[0].quantity)] + HeldRows(heldId, items[1..])
  }

  /** `hold-bill` (main.js:1268-1329): the same lookup loop and unknown-item
      abort as `save-bill`; the held price is the undiscounted catalog sum;
      no KOT and no Orders row; one detail row per entry. */
  function HoldBill(s: Store, req: HoldRequest): (r: (Store, Result<HeldId, FoodId>))
    ensures r.1.Failure? <==> !Known(s.catalog, req.items)
    ensures r.1.Failure? ==> r.0 == s && r.1.error == req.items[FirstUnknown(s.catalog, req.items)].foodId
    ensures r.1.Success? ==>
              var id := s.nextHeld;
              && r.1.value == id
              && r.0.held == s.held[id := HeldHeader(CostSum(s.catalog, req.items),
                                                     LevySum(s.catalog, req.items, Sgst),
                                                     LevySum(s.catalog, req.items, Cgst),
                                                     LevySum(s.catalog, req.items, Tax), req.cashier)]
              && r.0.heldDetails == s.heldDetails + HeldRows(id, req.items)
              && r.0.nextHeld == s.nextHeld + 1
              && r.0.orders == s.orders && r.0.details == s.details
              && r.0.discounts == s.discounts && r.0.nextBill == s.nextBill
              && r.0.catalog == s.catalog && r.0.deleted == s.deleted
              && r.0.deletedDetails == s.deletedDetails
  {
    match Accumulate(s.catalog, req.items)
    case Failure(fid) => (s, Failure(fid))
    case Success(t) =>
      var id := s.nextHeld;
      (s.(held := s.held[id := HeldHeader(t.price, t.sgst, t.cgst, t.tax, req.cashier)],
          heldDetails := s.heldDetails + HeldRows(id, req.items),
          nextHeld := s.nextHeld + 1),
       Success(id))
  }

  /** `delete-held-order` (main.js:1148-1167): the details go first, then
      the header; an unknown id changes nothing. */
  function DeleteHeldOrder(s: Store, heldId: HeldId): (r: Store)
    ensures r.held.Keys == s.held.Keys - {heldId}
    ensures forall h :: h in r.held ==> r.held[h] == s.held[h]
    ensures forall i :: 0 <= i < |r.heldDetails| ==> r.heldDetails[i].heldId != heldId
    ensures forall x :: x in s.heldDetails && x.heldId != heldId ==> x in r.heldDetails
    ensures r.(held := s.held, heldDetails := s.heldDetails) == s
    ensures forall h :: h != heldId ==>
              HeldOrderDetails(s.catalog, r.heldDetails, h) == HeldOrderDetails(s.catalog, s.heldDetails, h)
    ensures forall h, id :: h != heldId ==>
              HeldQuantity(s.catalog, r.heldDetails, h, id) == HeldQuantity(s.catalog, s.heldDetails, h, id)
  {
    DropHeldKeepsOthers(s.catalog, s.heldDetails, heldId);
    var s1 := s.(heldDetails := DropHeld(s.heldDetails, heldId));
    s1.(held := s1.held - {heldId})
  }

  /** Deleting one held order leaves what every other held order resumes
      to, line for line and quantity for quantity. */
  lemma DropHeldKeepsOthers(cat: Catalog, rows: seq<HeldDetail>, heldId: HeldId)
    ensures forall h :: h != heldId ==>
              HeldOrderDetails(cat, DropHeld(rows, heldId), h) == HeldOrderDetails(cat, rows, h)
    ensures forall h, id :: h != heldId ==>
              HeldQuantity(cat, DropHeld(rows, heldId), h, id) == HeldQuantity(cat, rows, h, id)
  {
    forall h | h != heldId
      ensures HeldOrderDetails(cat, DropHeld(rows, heldId), h) == HeldOrderDetails(cat, rows, h)
    {
      DropHeldKeepsDetails(cat, rows, heldId, h);
    }
    forall h, id | h != heldId
      ensures HeldQuantity(cat, DropHeld(rows, heldId), h, id) == HeldQuantity(cat, rows, h, id)
    {
      DropHeldKeepsQuantity(cat, rows, heldId, h, id);
    }
  }

  lemma {:induction false} DropHeldKeepsDetails(cat: Catalog, rows: seq<HeldDetail>, heldId: HeldId, h: HeldId)
    requires h != heldId
    ensures HeldOrderDetails(cat, DropHeld(rows, heldId), h) == HeldOrderDetails(cat, rows, h)
    decreases |rows|
  {
    if rows != [] {
      DropHeldKeepsDetails(cat, rows[1..], heldId, h);
      var d := DropHeld(rows[1..], heldId);
      if rows[0].heldId == heldId {
        assert DropHeld(rows, heldId) == d;
      } else {
        assert DropHeld(rows, heldId) == [rows[0]] + d;
        assert ([rows[0]] + d)[0] == rows[0] && ([rows[0]] + d)[1..] == d;
      }
    }
  }

  lemma DropHeldKeepsQuantity(cat: Catalog, rows: seq<HeldDetail>, heldId: HeldId, h: HeldId, id: FoodId)
    requires h != heldId
    ensures HeldQuantity(cat, DropHeld(rows, heldId), h, id) == HeldQuantity(cat, rows, h, id)
  {
    DropHeldKeepsDetails(cat, rows, heldId, h);
    HeldQuantityOfDetails(cat, rows, h, id);
    HeldQuantityOfDetails(cat, DropHeld(rows, heldId), h, id);
  }

  /** A held row survives the JOIN with FoodItem when it belongs to
      `heldId` and its food id has a catalog row. */
  predicate Joins(cat: Catalog, x: HeldDetail, heldId: HeldId)
  {
    x.heldId == heldId && x.foodId in cat
  }

  /** The number of held rows the JOIN keeps. */
  function JoinCount(cat: Catalog, rows: seq<HeldDetail>, heldId: HeldId): nat
  {
    if rows == [] then 0
    else (if Joins(cat, rows[0], heldId) then 1 else 0) + JoinCount(cat, rows[1..], heldId)
  }

  /** Σ of the positive quantities the held rows of `heldId` that survive
      the JOIN carry for item `id`, read off the table directly. */
  function HeldQuantity(cat: Catalog, rows: seq<HeldDetail>, heldId: HeldId, id: FoodId): int
  {
    if rows == [] then 0
    else (if Joins(cat, rows[0], heldId) && rows[0].foodId == id && rows[0].quantity > 0
          then rows[0].quantity else 0)
         + HeldQuantity(cat, rows[1..], heldId, id)
  }

  /** `get-held-order-details` (main.js:1112-1144): the held rows joined
      with FoodItem, so each line carries the catalog's current name and
      cost; rows whose food id has no catalog row drop out of the join. */
  function HeldOrderDetails(cat: Catalog, rows: seq<HeldDetail>, heldId: HeldId): (r: seq<HeldLine>)
    ensures |r| == JoinCount(cat, rows, heldId)
    ensures forall i :: 0 <= i < |rows| && Joins(cat, rows[i], heldId) ==>
              HeldLine(rows[i].foodId, cat[rows[i].foodId].name, cat[rows[i].foodId].cost, rows[i].quantity) in r
    ensures forall i :: 0 <= i < |r| ==>
              && r[i].foodId in cat
              && r[i].name == cat[r[i].foodId].name && r[i].price == cat[r[i].foodId].cost
              && HeldDetail(heldId, r[i].foodId, r[i].quantity) in rows
    ensures (forall i :: 0 <= i < |rows| ==> rows[i].heldId != heldId) ==> r == []
  {
    if rows == [] then []
    else
      var x := rows[0];
      var rest := HeldOrderDetails(cat, rows[1..], heldId);
      assert forall i :: 1 <= i < |rows| ==> rows[i] == rows[1..][i - 1];
      if x.heldId == heldId && x.foodId in cat
      then [HeldLine(x.foodId, cat[x.foodId].name, cat[x.foodId].cost, x.quantity)] + rest
      else rest
  }

  /** What the details carry for an item is what the held table carries for
      it: every surviving row counts, once. */
  lemma {:induction false} HeldQuantityOfDetails(cat: Catalog, rows: seq<HeldDetail>, heldId: HeldId, id: FoodId)
    ensures AddedQuantity(HeldOrderDetails(cat, rows, heldId), id) == HeldQuantity(cat, rows, heldId, id)
    decreases |rows|
  {
    if rows != [] {
      HeldQuantityOfDetails(cat, rows[1..], heldId, id);
      var x := rows[0];
      var rest := HeldOrderDetails(cat, rows[1..], heldId);
      if Joins(cat, x, heldId) {
        var line := HeldLine(x.foodId, cat[x.foodId].name, cat[x.foodId].cost, x.quantity);
        assert ([line] + rest)[1..] == rest;
      }
    }
  }

  /** Resuming a held order (bill.js:410-429 with main.js:1112-1167): its
      lines are replayed into the live bill through `addToBill`, then the
      held order is deleted. */
  function ResumeHeld(b: Bill, s: Store, heldId: HeldId): (Bill, Store)
  {
    (Replay(b, HeldOrderDetails(s.catalog, s.heldDetails, heldId)), DeleteHeldOrder(s, heldId))
  }

  /** After a resume the held order is gone, and the live bill holds each
      item's earlier quantity plus what the held order carried for it. */
  lemma ResumeMergesAndConsumes(b: Bill, s: Store, heldId: HeldId, id: FoodId)
    requires DistinctIds(b.lines)
    ensures var (b', s') := ResumeHeld(b, s, heldId);
            && heldId !in s'.held
            && (forall i :: 0 <= i < |s'.heldDetails| ==> s'.heldDetails[i].heldId != heldId)
            && QuantityOf(b'.lines, id)
               == QuantityOf(b.lines, id) + HeldQuantity(s.catalog, s.heldDetails, heldId, id)
            && DistinctIds(b'.lines)
  {
    ReplayMerges(b, HeldOrderDetails(s.catalog, s.heldDetails, heldId), id);
    HeldQuantityOfDetails(s.catalog, s.heldDetails, heldId, id);
  }

  /** A held order resumes at most once: a second resume of the same id
      finds no rows, adds nothing and deletes nothing. */
  lemma ResumeIsSingleUse(b: Bill, s: Store, heldId: HeldId)
    ensures var (b1, s1) := ResumeHeld(b, s, heldId);
            ResumeHeld(b1, s1, heldId) == (b1, s1)
  {
    var (b1, s1) := ResumeHeld(b, s, heldId);
    assert HeldOrderDetails(s1.catalog, s1.heldDetails, heldId) == [];
    assert s1.held - {heldId} == s1.held;
    assert DropHeld(s1.heldDetails, heldId) == s1.heldDetails by {
      DropHeldNoop(s1.heldDetails, heldId);
    }
  }

  lemma {:induction false} DropHeldNoop(rows: seq<HeldDetail>, heldId: HeldId)
    requires forall i :: 0 <= i < |rows| ==> rows[i].heldId != heldId
    ensures DropHeld(rows, heldId) == rows
    decreases |rows|
  {
    if rows != [] {
      DropHeldNoop(rows[1..], heldId);
      assert [rows[0]] + rows[1..] == rows;
    }
  }
}

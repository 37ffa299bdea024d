/**
 * The renderer's in-progress bill (bill.js): the line rows of
 * `#bill-items-list` and the hidden `#discounted-total` field, lifted out of
 * the DOM into an immutable value.
 */
module Billing {
  import opened Wrappers
  import opened Catalog

  /** One `.bill-item` row. `price` is the unit price the row was created
      with (the one its quantity listener captured); `total` is the text of
      its `.bill-total` cell. */
  datatype Line = Line(id: FoodId, name: string, price: real, quantity: int, total: real)

  /** The bill being composed. `discountField` is `None` while no
      `#discounted-total` element exists, otherwise the number it holds. */
  datatype Bill = Bill(lines: seq<Line>, discountField: Option<real>)

  datatype BillError = InvalidQuantity

  const EmptyBill := Bill([], None)

  /** At most one row per item id (row ids are `bill-item-<id>`). */
  predicate DistinctIds(lines: seq<Line>)
  {
    forall i, j :: 0 <= i < j < |lines| ==> lines[i].id != lines[j].id
  }

  /** The row holding item `id`, if any. */
  function Find(lines: seq<Line>, id: FoodId): (r: Option<nat>)
    ensures r.Some? ==> r.value < |lines| && lines[r.value].id == id
    ensures r.Some? ==> forall j :: 0 <= j < r.value ==> lines[j].id != id
    ensures r.None? <==> forall j :: 0 <= j < |lines| ==> lines[j].id != id
  {
    if lines == [] then None
    else if lines[0].id == id then Some(0)
    else match Find(lines[1..], id)
         case None => None
         case Some(k) => Some(k + 1)
  }

  /** Quantity of item `id` on the bill, 0 when it has no row. */
  function QuantityOf(lines: seq<Line>, id: FoodId): int
  {
    match Find(lines, id)
    case None => 0
    case Some(k) => lines[k].quantity
  }

  /** Σ of the `.bill-total` cells, as `updateBillTotal` and `applyDiscount`
      add them up. */
  function Subtotal(lines: seq<Line>): real
  {
    if lines == [] then 0.0 else Subtotal(lines[..|lines| - 1]) + lines[|lines| - 1].total
  }

  /** `addToBill` (bill.js:2-66). A non-positive quantity only raises an
      alert. An id already on the bill gets its quantity increased and its
      total recomputed with the price of THIS call; a new id is appended.
      The hidden discounted total is never touched. */
  function AddToBill(b: Bill, id: FoodId, name: string, price: real, quantity: int): (r: Result<Bill, BillError>)
    ensures quantity <= 0 ==> r == Failure(InvalidQuantity)
    ensures quantity > 0 ==> r.Success? && r.value.discountField == b.discountField
    ensures quantity > 0 && Find(b.lines, id).Some? ==>
              var k := Find(b.lines, id).value;
              && |r.value.lines| == |b.lines|
              && r.value.lines[k] == b.lines[k].(quantity := b.lines[k].quantity + quantity,
                                                 total := price * (b.lines[k].quantity + quantity) as real)
              && forall j :: 0 <= j < |b.lines| && j != k ==> r.value.lines[j] == b.lines[j]
    ensures quantity > 0 && Find(b.lines, id).None? ==>
              r.value.lines == b.lines + [Line(id, name, price, quantity, price * quantity as real)]
    ensures r.Success? && DistinctIds(b.lines) ==> DistinctIds(r.value.lines)
  {
    if quantity <= 0 then Failure(InvalidQuantity)
    else match Find(b.lines, id)
      case Some(k) =>
        var old_ := b.lines[k];
        var q := old_.quantity + quantity;
        Success(b.(lines := b.lines[k := old_.(quantity := q, total := price * q as real)]))
      case None =>
        Success(b.(lines := b.lines + [Line(id, name, price, quantity, price * quantity as real)]))
  }

  /** `Math.max(1, parseInt(v) || 1)` (bill.js:75): `input` is what
      `parseInt` made of the field, `None` for NaN. */
  function ClampQuantity(input: Option<int>): (q: int)
    ensures q >= 1
    ensures input.Some? && input.value >= 1 ==> q == input.value
    ensures input.None? || input.value < 1 ==> q == 1
  {
    match input
    case None => 1
    case Some(n) => if n >= 1 then n else 1
  }

  /** `updateQuantityInput` (bill.js:68-80): the row's quantity becomes the
      clamped input and its total the row's creation price times it. */
  function UpdateQuantity(b: Bill, id: FoodId, input: Option<int>): (r: Bill)
    ensures r.discountField == b.discountField
    ensures |r.lines| == |b.lines|
    ensures Find(b.lines, id).None? ==> r == b
    ensures Find(b.lines, id).Some? ==>
              var k := Find(b.lines, id).value;
              && r.lines[k].quantity == ClampQuantity(input)
              && r.lines[k].total == b.lines[k].price * r.lines[k].quantity as real
              && (input.Some? && input.value >= 1 ==> r.lines[k].quantity == input.value)
              && (input.None? || input.value < 1 ==> r.lines[k].quantity == 1)
              && r.lines[k].(quantity := b.lines[k].quantity, total := b.lines[k].total) == b.lines[k]
              && forall j :: 0 <= j < |b.lines| && j != k ==> r.lines[j] == b.lines[j]
    ensures DistinctIds(b.lines) ==> DistinctIds(r.lines)
  {
    match Find(b.lines, id)
    case None => b
    case Some(k) =>
      var line := b.lines[k];
      var q := ClampQuantity(input);
      b.(lines := b.lines[k := line.(quantity := q, total := line.price * q as real)])
  }

  /** `removeFromBill` (bill.js:84-90): drop the row of `id`; no row, no change. */
  function RemoveFromBill(b: Bill, id: FoodId): (r: Bill)
    ensures r.discountField == b.discountField
    ensures Find(b.lines, id).None? ==> r == b
    ensures Find(b.lines, id).Some? ==>
              var k := Find(b.lines, id).value;
              r.lines == b.lines[..k] + b.lines[k + 1..]
    ensures DistinctIds(b.lines) ==> DistinctIds(r.lines) && Find(r.lines, id).None?
  {
    match Find(b.lines, id)
    case None => b
    case Some(k) =>
      var r := b.(lines := b.lines[..k] + b.lines[k + 1..]);
      assert forall j :: 0 <= j < |r.lines| ==>
               r.lines[j] == (if j < k then b.lines[j] else b.lines[j + 1]);
      r
  }

  /** `resetBill` (bill.js:93-121): no rows; an existing discounted-total
      field is set to 0, a missing one stays missing. */
  function ResetBill(b: Bill): (r: Bill)
    ensures r.lines == []
    ensures r.discountField.Some? <==> b.discountField.Some?
    ensures r.discountField.Some? ==> r.discountField.value == 0.0
  {
    Bill([], if b.discountField.Some? then Some(0.0) else None)
  }

  datatype DiscountError = NegativeDiscount | AmbiguousDiscountMode | DiscountExceedsTotal

  /** What `applyDiscount` displays: the discounted total and the discount. */
  datatype DiscountShown = DiscountShown(discountedTotal: real, discountValue: real)

  function Max0(x: real): real { if x < 0.0 then 0.0 else x }

  /** `subtotal - subtotal * (percentage / 100)` (bill.js:164). */
  function PercentOff(subtotal: real, percentage: real): real
  {
    subtotal - subtotal * (percentage / 100.0)
  }

  /** The arithmetic of `applyDiscount` (bill.js:161-169) on an already
      validated spec: percentage mode takes precedence, the result is
      floored at 0. */
  function Discounted(subtotal: real, percentage: real, amount: real): real
  {
    if percentage > 0.0 then Max0(PercentOff(subtotal, percentage))
    else if amount > 0.0 then Max0(subtotal - amount)
    else Max0(subtotal)
  }

  /** `applyDiscount` (bill.js:125-196): the subtotal is re-summed from the
      line totals, an existing field is first reset to it, and only then are
      the three checks made; a valid spec stores the floored discounted total. */
  function ApplyDiscount(b: Bill, percentage: real, amount: real): (r: (Bill, Result<DiscountShown, DiscountError>))
    ensures r.0.lines == b.lines
    ensures percentage < 0.0 || amount < 0.0 ==> r.1 == Failure(NegativeDiscount)
    ensures percentage >= 0.0 && amount >= 0.0 && percentage > 0.0 && amount > 0.0 ==>
              r.1 == Failure(AmbiguousDiscountMode)
    ensures (percentage >= 0.0 && amount >= 0.0 && !(percentage > 0.0 && amount > 0.0)
             && amount > Subtotal(b.lines)) ==> r.1 == Failure(DiscountExceedsTotal)
    ensures (percentage >= 0.0 && amount >= 0.0 && !(percentage > 0.0 && amount > 0.0)
             && amount <= Subtotal(b.lines)) ==> r.1.Success?
    ensures r.1.Failure? ==>
              r.0.discountField == (if b.discountField.Some? then Some(Subtotal(b.lines)) else None)
    ensures r.1.Success? ==>
              && percentage >= 0.0 && amount >= 0.0 && !(percentage > 0.0 && amount > 0.0)
              && amount <= Subtotal(b.lines)
              && r.0.discountField == Some(r.1.value.discountedTotal)
              && r.1.value.discountedTotal >= 0.0
              && r.1.value.discountValue == Subtotal(b.lines) - r.1.value.discountedTotal
              && (percentage > 0.0 ==> r.1.value.discountedTotal
                                       == Max0(PercentOff(Subtotal(b.lines), percentage)))
              && (amount > 0.0 ==> r.1.value.discountedTotal == Max0(Subtotal(b.lines) - amount))
              && (percentage == 0.0 && amount == 0.0 ==>
                    r.1.value.discountedTotal == Max0(Subtotal(b.lines)))
  {
    var subtotal := Subtotal(b.lines);
    var reset := b.(discountField := if b.discountField.Some? then Some(subtotal) else None);
    if percentage < 0.0 || amount < 0.0 then (reset, Failure(NegativeDiscount))
    else if percentage > 0.0 && amount > 0.0 then (reset, Failure(AmbiguousDiscountMode))
    else if amount > subtotal then (reset, Failure(DiscountExceedsTotal))
    else
      var d := Discounted(subtotal, percentage, amount);
      (b.(discountField := Some(d)), Success(DiscountShown(d, subtotal - d)))
  }

  /** The discount shown never is negative nor larger than the subtotal. */
  lemma DiscountBounds(b: Bill, percentage: real, amount: real)
    requires Subtotal(b.lines) >= 0.0
    ensures var r := ApplyDiscount(b, percentage, amount).1;
            r.Success? ==> 0.0 <= r.value.discountValue <= Subtotal(b.lines)
                           && r.value.discountedTotal <= Subtotal(b.lines)
  {
  }

  /** A new spec supersedes the previous discount rather than stacking on
      it: the outcome of the second application is what it would have been
      on the bill before the first one, and a successful second application
      leaves the very same bill. */
  lemma DiscountSupersedes(b: Bill, p1: real, a1: real, p2: real, a2: real)
    ensures var first := ApplyDiscount(b, p1, a1).0;
            var again := ApplyDiscount(first, p2, a2);
            var direct := ApplyDiscount(b, p2, a2);
            && again.1 == direct.1
            && (again.1.Success? || b.discountField.Some? ==> again.0 == direct.0)
  {
  }

  /** Applying the same spec twice gives what applying it once gives. */
  lemma DiscountIdempotent(b: Bill, p: real, a: real)
    ensures var once := ApplyDiscount(b, p, a);
            ApplyDiscount(once.0, p, a).1 == once.1
  {
  }

  /** Worked example: 10% of 1000 leaves 900 and shows a discount of 100. */
  lemma PercentageExample()
    ensures var b := Bill([Line(1, "Thali", 1000.0, 1, 1000.0)], None);
            ApplyDiscount(b, 10.0, 0.0).1 == Success(DiscountShown(900.0, 100.0))
  {
  }

  /** Worked example: a fixed 600 off 500 is refused. */
  lemma ExceedsExample()
    ensures var b := Bill([Line(1, "Thali", 500.0, 1, 500.0)], None);
            ApplyDiscount(b, 0.0, 600.0).1 == Failure(DiscountExceedsTotal)
            && ApplyDiscount(b, 10.0, 50.0).1 == Failure(AmbiguousDiscountMode)
  {
  }

  /** The `save-bill` payload (bill.js:255). */
  datatype SaveRequest = SaveRequest(cashier: int, date: string, items: seq<ItemQty>, totalAmount: real)

  /** `{ foodId, quantity }` for every row, quantities read from `.value`. */
  function PayloadItems(lines: seq<Line>): (items: seq<ItemQty>)
    ensures |items| == |lines|
    ensures forall i :: 0 <= i < |lines| ==> items[i] == ItemQty(lines[i].id, lines[i].quantity)
  {
    if lines == [] then [] else [ItemQty(lines[0].id, lines[0].quantity)] + PayloadItems(lines[1..])
  }

  /** The cashier id every renderer payload carries (bill.js:228, 273). */
  const Cashier := 1

  /** `saveAndPrintBill` (bill.js:227-267): nothing is sent for an empty
      bill; otherwise the stored discounted total is sent when the field
      exists and the sum of the line totals when it does not, and the bill
      is reset. `date` stands for today's ISO date. */
  function SaveAndPrint(b: Bill, date: string): (r: (Bill, Option<SaveRequest>))
    ensures b.lines == [] ==> r == (b, None)
    ensures b.lines != [] ==>
              && r.1.Some?
              && r.1.value.items == PayloadItems(b.lines)
              && r.1.value.cashier == Cashier && r.1.value.date == date
              && r.1.value.totalAmount
                 == (if b.discountField.Some? then b.discountField.value else Subtotal(b.lines))
              && r.0 == ResetBill(b)
  {
    if b.lines == [] then (b, None)
    else
      var total := match b.discountField
                   case Some(v) => v
                   case None => Subtotal(b.lines);
      (ResetBill(b), Some(SaveRequest(Cashier, date, PayloadItems(b.lines), total)))
  }

  /** Add, edit and remove leave a discount applied earlier in place, so it
      is what a later save sends even though the lines changed. */
  lemma StaleDiscountIsSent(b: Bill, id: FoodId, name: string, price: real, q: int, input: Option<int>, date: string)
    requires b.discountField.Some?
    requires q > 0
    ensures var added := AddToBill(b, id, name, price, q).value;
            var edited := UpdateQuantity(added, id, input);
            var removed := RemoveFromBill(edited, id);
            && SaveAndPrint(edited, date).1.value.totalAmount == b.discountField.value
            && (removed.lines != [] ==>
                  SaveAndPrint(removed, date).1.value.totalAmount == b.discountField.value)
  {
  }

  /** After a reset the field, when it exists, holds 0: a save then sends
      a total of 0. */
  lemma ResetSendsZero(b: Bill, id: FoodId, name: string, price: real, q: int, date: string)
    requires b.discountField.Some? && q > 0
    ensures var restarted := AddToBill(ResetBill(b), id, name, price, q).value;
            SaveAndPrint(restarted, date).1.value.totalAmount == 0.0
  {
  }

  /** `addToBill` with a bad quantity as a statement: the bill stays as it is. */
  function AddOrKeep(b: Bill, id: FoodId, name: string, price: real, quantity: int): Bill
  {
    match AddToBill(b, id, name, price, quantity)
    case Success(b') => b'
    case Failure(_) => b
  }

  lemma {:induction false} AddQuantityOf(b: Bill, id: FoodId, name: string, price: real, q: int, other: FoodId)
    requires DistinctIds(b.lines)
    ensures QuantityOf(AddOrKeep(b, id, name, price, q).lines, other)
            == QuantityOf(b.lines, other) + (if other == id && q > 0 then q else 0)
  {
    var r := AddOrKeep(b, id, name, price, q);
    if q > 0 {
      assert DistinctIds(r.lines);
      match Find(b.lines, id)
      case Some(k) =>
        if other == id {
          assert Find(r.lines, id) == Some(k);
        } else {
          match Find(b.lines, other)
          case Some(m) =>
            assert r.lines[m] == b.lines[m];
            assert Find(r.lines, other) == Some(m);
          case None =>
            assert Find(r.lines, other).None?;
        }
      case None =>
        var n := |b.lines|;
        assert r.lines[n].id == id;
        if other == id {
          assert Find(r.lines, id) == Some(n);
        } else {
          match Find(b.lines, other)
          case Some(m) =>
            assert r.lines[m] == b.lines[m];
            assert Find(r.lines, other) == Some(m);
          case None =>
            assert Find(r.lines, other).None?;
        }
    }
  }

  /** One line of a held order, as `get-held-order-details` returns it. */
  datatype HeldLine = HeldLine(foodId: FoodId, name: string, price: real, quantity: int)

  /** The `held-order-details-data` handler's loop (bill.js:421-423): every
      held line goes through `addToBill`, in order. */
  function Replay(b: Bill, held: seq<HeldLine>): Bill
    decreases |held|
  {
    if held == [] then b
    else Replay(AddOrKeep(b, held[0].foodId, held[0].name, held[0].price, held[0].quantity), held[1..])
  }

  /** Σ of the positive quantities `held` brings for item `id`. */
  function AddedQuantity(held: seq<HeldLine>, id: FoodId): int
  {
    if held == [] then 0
    else (if held[0].foodId == id && held[0].quantity > 0 then held[0].quantity else 0)
         + AddedQuantity(held[1..], id)
  }

  /** Resuming merges: each item's quantity is what it was plus everything
      the held order carried for it, and ids stay distinct. */
  lemma {:induction false} ReplayMerges(b: Bill, held: seq<HeldLine>, id: FoodId)
    requires DistinctIds(b.lines)
    ensures DistinctIds(Replay(b, held).lines)
    ensures QuantityOf(Replay(b, held).lines, id) == QuantityOf(b.lines, id) + AddedQuantity(held, id)
    ensures Replay(b, held).discountField == b.discountField
    decreases |held|
  {
    if held != [] {
      var h := held[0];
      var b1 := AddOrKeep(b, h.foodId, h.name, h.price, h.quantity);
      AddQuantityOf(b, h.foodId, h.name, h.price, h.quantity, id);
      ReplayMerges(b1, held[1..], id);
    }
  }

  /** Repeated additions of one item add up: its quantity is the sum of
      all positive quantities passed, its total the last price times it. */
  lemma RepeatedAdds(id: FoodId, name: string, price: real, qs: seq<int>)
    ensures var held := seq(|qs|, i requires 0 <= i < |qs| => HeldLine(id, name, price, qs[i]));
            var r := Replay(EmptyBill, held);
            QuantityOf(r.lines, id) == AddedQuantity(held, id)
  {
    var held := seq(|qs|, i requires 0 <= i < |qs| => HeldLine(id, name, price, qs[i]));
    ReplayMerges(EmptyBill, held, id);
  }

  /** The `hold-bill` payload (bill.js:295). */
  datatype HoldRequest = HoldRequest(cashier: int, date: string, items: seq<ItemQty>)

  /** The `add-to-existing-order` payload (bill.js:619). */
  datatype MergeRequest = MergeRequest(orderId: int, items: seq<ItemQty>)

  /** Which property of a row's quantity `<input>` a payload builder reads. */
  datatype QuantityRead = FromValue | FromTextContent

  /** `parseInt` of what is read: an `<input>` has no child text, so its
      `textContent` is the empty string and parses to NaN (`None`). */
  function ReadQuantity(l: Line, via: QuantityRead): Option<int>
  {
    match via
    case FromValue => Some(l.quantity)
    case FromTextContent => None
  }

  /** A payload entry whose quantity may be NaN. */
  datatype RawItem = RawItem(foodId: FoodId, quantity: Option<int>)

  function RawPayload(lines: seq<Line>, via: QuantityRead): (items: seq<RawItem>)
    ensures |items| == |lines|
    ensures forall i :: 0 <= i < |lines| ==>
              items[i] == RawItem(lines[i].id, ReadQuantity(lines[i], via))
  {
    if lines == [] then []
    else [RawItem(lines[0].id, ReadQuantity(lines[0], via))] + RawPayload(lines[1..], via)
  }

  /** `holdBill` and `addToExistingOrder` as written (bill.js:282-287,
      606-611): they read `.textContent` of the quantity input. */
  function HeldItemsAsWritten(b: Bill): (r: Option<seq<RawItem>>)
    ensures r.None? <==> b.lines == []
    ensures r.Some? ==> |r.value| == |b.lines|
    ensures r.Some? ==> forall i :: 0 <= i < |b.lines| ==>
              r.value[i].foodId == b.lines[i].id && r.value[i].quantity.None?
  {
    if b.lines == [] then None else Some(RawPayload(b.lines, FromTextContent))
  }

  /** As written, every quantity of a non-empty bill reaches `hold-bill` or
      `add-to-existing-order` as NaN, while `saveAndPrintBill`, reading
      `.value`, sends the real quantities. */
  lemma HeldItemsLoseQuantities(b: Bill, date: string)
    requires b.lines != []
    ensures var sent := HeldItemsAsWritten(b).value;
            && |sent| == |b.lines|
            && (forall i :: 0 <= i < |sent| ==> sent[i].quantity.None?)
            && (forall i :: 0 <= i < |sent| ==>
                  SaveAndPrint(b, date).1.value.items[i].quantity == b.lines[i].quantity)
  {
  }

  /** Counterexample: a one-row bill of quantity 2 is held with quantity NaN. */
  lemma HeldQuantityCounterexample()
    ensures var b := Bill([Line(7, "Lassi", 40.0, 2, 80.0)], None);
            HeldItemsAsWritten(b) == Some([RawItem(7, None)])
            && RawPayload(b.lines, FromValue) == [RawItem(7, Some(2))]
  {
    var b := Bill([Line(7, "Lassi", 40.0, 2, 80.0)], None);
    assert b.lines[1..] == [];
    assert RawPayload(b.lines, FromTextContent) == [RawItem(7, None)];
  }

  /** `holdBill` (bill.js:271-301) reading quantities from `.value`, as
      `saveAndPrintBill` does: nothing is sent for an empty bill; otherwise
      every row's id and quantity are sent and the bill is reset. */
  function HoldBill(b: Bill, date: string): (r: (Bill, Option<HoldRequest>))
    ensures b.lines == [] ==> r == (b, None)
    ensures b.lines != [] ==>
              && r.1 == Some(HoldRequest(Cashier, date, SaveAndPrint(b, date).1.value.items))
              && r.0 == ResetBill(b)
    ensures b.lines != [] ==>
              forall i :: 0 <= i < |b.lines| ==>
                Some(r.1.value.items[i].quantity) == ReadQuantity(b.lines[i], FromValue)
  {
    if b.lines == [] then (b, None)
    else (ResetBill(b), Some(HoldRequest(Cashier, date, PayloadItems(b.lines))))
  }

  /** `addToExistingOrder` (bill.js:601-626), quantities from `.value`:
      nothing is sent for an empty bill; otherwise the rows go to order
      `orderId` and the bill is reset. */
  function AddToExistingOrder(b: Bill, orderId: int): (r: (Bill, Option<MergeRequest>))
    ensures b.lines == [] ==> r == (b, None)
    ensures b.lines != [] ==>
              && r.1.Some? && r.1.value.orderId == orderId
              && |r.1.value.items| == |b.lines|
              && (forall i :: 0 <= i < |b.lines| ==>
                    r.1.value.items[i] == ItemQty(b.lines[i].id, b.lines[i].quantity))
              && r.0 == ResetBill(b)
  {
    if b.lines == [] then (b, None)
    else (ResetBill(b), Some(MergeRequest(orderId, PayloadItems(b.lines))))
  }
}

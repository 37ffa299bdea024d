/**
 * The SQLite tables the order workflows read and write, as one immutable
 * store value, plus the row-level operations the handlers issue.
 */
module Tables {
  import opened Wrappers
  import opened Catalog

  type BillNo = int
  type HeldId = int

  /** One Orders row (its key, `billno`, is the map key). */
  datatype OrderHeader = OrderHeader(kot: int, price: real, sgst: real, cgst: real, tax: real,
                                     cashier: int, date: string)

  /** The unique `(orderid, foodid)` key of OrderDetails. */
  datatype DetailKey = DetailKey(bill: BillNo, food: FoodId)

  /** One HeldOrders row: no date and no KOT. */
  datatype HeldHeader = HeldHeader(price: real, sgst: real, cgst: real, tax: real, cashier: int)

  /** One HeldOrderDetails row. */
  datatype HeldDetail = HeldDetail(heldId: HeldId, foodId: FoodId, quantity: int)

  /** One DiscountedOrders row, keyed by `billno`. */
  datatype DiscountRecord = DiscountRecord(initialPrice: real, discountPercentage: real, discountAmount: real)

  /** One DeletedOrders row: the archived header and the reason given. */
  datatype DeletedOrder = DeletedOrder(billNo: BillNo, header: OrderHeader, reason: string)

  /** The database. `nextBill` and `nextHeld` stand for the row ids SQLite
      hands out on insert. */
  datatype Store = Store(
    catalog: Catalog,
    orders: map<BillNo, OrderHeader>,
    details: map<DetailKey, int>,
    held: map<HeldId, HeldHeader>,
    heldDetails: seq<HeldDetail>,
    discounts: map<BillNo, DiscountRecord>,
    deleted: seq<DeletedOrder>,
    deletedDetails: map<DetailKey, int>,
    nextBill: BillNo,
    nextHeld: HeldId)

  /** Generated ids are never handed out twice. */
  predicate Valid(s: Store)
  {
    && (forall b :: b in s.orders ==> b < s.nextBill)
    && (forall h :: h in s.held ==> h < s.nextHeld)
  }

  /** The KOT numbers already used on `date`. */
  function KotsOn(orders: map<BillNo, OrderHeader>, date: string): set<int>
  {
    set b | b in orders && orders[b].date == date :: orders[b].kot
  }

  lemma {:induction false} MaxExists(s: set<int>)
    requires exists z :: z in s
    ensures exists m :: m in s && forall x :: x in s ==> x <= m
    decreases |s|
  {
    var x :| x in s;
    var rest := s - {x};
    if exists z :: z in rest {
      MaxExists(rest);
      var m :| m in rest && forall y :: y in rest ==> y <= m;
      var top := if x > m then x else m;
      forall y | y in s ensures y <= top {
        if y != x { assert y in rest; }
      }
      assert top in s;
    } else {
      forall y | y in s ensures y <= x {
        assert y !in rest;
      }
    }
  }

  /** The largest element of a non-empty set. */
  function MaxOf(s: set<int>): (m: int)
    requires exists z :: z in s
    ensures m in s
    ensures forall x :: x in s ==> x <= m
  {
    MaxExists(s);
    var m :| m in s && forall x :: x in s ==> x <= m;
    m
  }

  predicate HasOrderOn(orders: map<BillNo, OrderHeader>, date: string)
  {
    exists b | b in orders :: orders[b].date == date
  }

  /** `SELECT kot ... WHERE date = ? ORDER BY kot DESC LIMIT 1`, plus one,
      or 1 when the date has no order (main.js:1207-1218). */
  function NextKot(orders: map<BillNo, OrderHeader>, date: string): (k: int)
    ensures !HasOrderOn(orders, date) ==> k == 1
    ensures HasOrderOn(orders, date) ==>
              exists b :: b in orders && orders[b].date == date && orders[b].kot == k - 1
    ensures forall b :: b in orders && orders[b].date == date ==> orders[b].kot < k
  {
    if HasOrderOn(orders, date) then
      var used := KotsOn(orders, date);
      var b :| b in orders && orders[b].date == date;
      assert orders[b].kot in used;
      assert forall c :: c in orders && orders[c].date == date ==> orders[c].kot in used;
      MaxOf(used) + 1
    else 1
  }

  /** Position of the first payload entry for `food`. */
  function IndexOfFood(items: seq<ItemQty>, food: FoodId): (r: Option<nat>)
    ensures r.Some? ==> r.value < |items| && items[r.value].foodId == food
    ensures r.Some? ==> forall j :: 0 <= j < r.value ==> items[j].foodId != food
    ensures r.None? <==> forall j :: 0 <= j < |items| ==> items[j].foodId != food
  {
    if items == [] then None
    else if items[0].foodId == food then Some(0)
    else match IndexOfFood(items[1..], food)
         case None => None
         case Some(k) => Some(k + 1)
  }

  predicate DistinctFoods(items: seq<ItemQty>)
  {
    forall i, j :: 0 <= i < j < |items| ==> items[i].foodId != items[j].foodId
  }

  /** Plain `INSERT INTO OrderDetails` of every entry for `bill`: an insert
      that hits an existing `(orderid, foodid)` row fails and leaves that
      row as it was, so the first entry for each item wins. */
  function InsertRows(d: map<DetailKey, int>, bill: BillNo, items: seq<ItemQty>): (r: map<DetailKey, int>)
    ensures forall k :: k in d ==> k in r && r[k] == d[k]
    ensures forall k :: k in r <==> k in d || (k.bill == bill && IndexOfFood(items, k.food).Some?)
    ensures forall k :: k in r && k !in d ==> r[k] == items[IndexOfFood(items, k.food).value].quantity
    decreases |items|
  {
    if items == [] then d
    else
      var key := DetailKey(bill, items[0].foodId);
      var d1 := if key in d then d else d[key := items[0].quantity];
      InsertRows(d1, bill, items[1..])
  }

  /** Σ of the quantities the payload carries for `food`. */
  function QtySum(items: seq<ItemQty>, food: FoodId): int
  {
    if items == [] then 0
    else (if items[0].foodId == food then items[0].quantity else 0) + QtySum(items[1..], food)
  }

  /** The `INSERT ... ON CONFLICT(orderid, foodid) DO UPDATE SET quantity =
      quantity + ?` of every entry (main.js:1380-1386): quantities add up. */
  function UpsertRows(d: map<DetailKey, int>, bill: BillNo, items: seq<ItemQty>): (r: map<DetailKey, int>)
    ensures forall k :: k in r <==> k in d || (k.bill == bill && IndexOfFood(items, k.food).Some?)
    ensures forall k :: k in d && k.bill != bill ==> r[k] == d[k]
    ensures forall k :: k in r && k.bill == bill ==>
              r[k] == (if k in d then d[k] else 0) + QtySum(items, k.food)
    decreases |items|
  {
    if items == [] then d
    else
      var key := DetailKey(bill, items[0].foodId);
      var d1 := d[key := (if key in d then d[key] else 0) + items[0].quantity];
      UpsertRows(d1, bill, items[1..])
  }

  /** `DELETE FROM OrderDetails WHERE orderid = ?`. */
  function DropBill(d: map<DetailKey, int>, bill: BillNo): (r: map<DetailKey, int>)
    ensures forall k :: k in r <==> k in d && k.bill != bill
    ensures forall k :: k in r ==> r[k] == d[k]
  {
    map k | k in d && k.bill != bill :: d[k]
  }

  /** The OrderDetails rows of one bill. */
  function RowsOf(d: map<DetailKey, int>, bill: BillNo): (r: map<DetailKey, int>)
    ensures forall k :: k in r <==> k in d && k.bill == bill
    ensures forall k :: k in r ==> r[k] == d[k]
  {
    map k | k in d && k.bill == bill :: d[k]
  }

  /** `DELETE FROM HeldOrderDetails WHERE heldid = ?`. */
  function DropHeld(rows: seq<HeldDetail>, heldId: HeldId): (r: seq<HeldDetail>)
    ensures forall i :: 0 <= i < |r| ==> r[i].heldId != heldId && r[i] in rows
    ensures forall x :: x in rows && x.heldId != heldId ==> x in r
    ensures |r| <= |rows|
    ensures forall x :: multiset(r)[x] == if x.heldId == heldId then 0 else multiset(rows)[x]
  {
    if rows == [] then []
    else
      assert rows == [rows[0]] + rows[1..];
      (if rows[0].heldId == heldId then [] else [rows[0]]) + DropHeld(rows[1..], heldId)
  }

  /** The delete keeps the surviving rows in table order: filtering a
      concatenation filters each part. */
  lemma {:induction false} DropHeldConcat(a: seq<HeldDetail>, b: seq<HeldDetail>, heldId: HeldId)
    ensures DropHeld(a + b, heldId) == DropHeld(a, heldId) + DropHeld(b, heldId)
    decreases |a|
  {
    if a == [] {
      assert a + b == b;
    } else {
      assert (a + b)[1..] == a[1..] + b;
      DropHeldConcat(a[1..], b, heldId);
    }
  }
}

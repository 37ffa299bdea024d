/**
 * The FoodItem catalog and the per-item tax accumulation shared by the
 * `save-bill`, `hold-bill` and `add-to-existing-order` handlers.
 */
module Catalog {
  import opened Wrappers

  type FoodId = int

  /** One FoodItem row. `sgst`, `cgst` and `tax` are rates in percent;
      `isOn` and `active` are the 0/1 flags of the menu. */
  datatype FoodItem = FoodItem(name: string, category: int, cost: real,
                               sgst: real, cgst: real, tax: real,
                               isOn: int, active: int)

  type Catalog = map<FoodId, FoodItem>

  /** One `{ foodId, quantity }` entry of an IPC payload. */
  datatype ItemQty = ItemQty(foodId: FoodId, quantity: int)

  /** The four money columns an order or held order carries. */
  datatype Totals = Totals(price: real, sgst: real, cgst: real, tax: real)

  /** The three tax components, each with its own catalog rate. */
  datatype Levy = Sgst | Cgst | Tax

  function Rate(f: FoodItem, l: Levy): real
  {
    match l
    case Sgst => f.sgst
    case Cgst => f.cgst
    case Tax => f.tax
  }

  predicate Known(cat: Catalog, items: seq<ItemQty>)
  {
    forall i :: 0 <= i < |items| ==> items[i].foodId in cat
  }

  /** Catalog cost of one payload entry. */
  function LineCost(cat: Catalog, it: ItemQty): real
    requires it.foodId in cat
  {
    cat[it.foodId].cost * it.quantity as real
  }

  // Reference sums: what the accumulation loop is meant to add up.

  /** Σ cost × quantity over the payload. */
  function CostSum(cat: Catalog, items: seq<ItemQty>): real
    requires Known(cat, items)
  {
    if items == [] then 0.0
    else LineCost(cat, items[0]) + CostSum(cat, items[1..])
  }

  /** Σ cost × quantity × rate / 100 over the payload, for one tax component. */
  function LevySum(cat: Catalog, items: seq<ItemQty>, l: Levy): real
    requires Known(cat, items)
  {
    if items == [] then 0.0
    else LineCost(cat, items[0]) * Rate(cat[items[0].foodId], l) / 100.0
         + LevySum(cat, items[1..], l)
  }

  /** The totals a fully known payload is owed according to the catalog. */
  function CatalogTotals(cat: Catalog, items: seq<ItemQty>): Totals
    requires Known(cat, items)
  {
    Totals(CostSum(cat, items), LevySum(cat, items, Sgst),
           LevySum(cat, items, Cgst), LevySum(cat, items, Tax))
  }

  function AddTotals(a: Totals, b: Totals): Totals
  {
    Totals(a.price + b.price, a.sgst + b.sgst, a.cgst + b.cgst, a.tax + b.tax)
  }

  /** Position of the first payload entry the catalog does not know. */
  function FirstUnknown(cat: Catalog, items: seq<ItemQty>): (k: nat)
    requires !Known(cat, items)
    ensures k < |items| && items[k].foodId !in cat
    ensures forall j :: 0 <= j < k ==> items[j].foodId in cat
  {
    if items[0].foodId !in cat then 0
    else 1 + FirstUnknown(cat, items[1..])
  }

  /** One pass of the lookup loop (main.js:1179-1201): look up each entry in
      turn, stop with its id at the first one that has no row, and otherwise
      add its cost and tax shares to the running totals. */
  function AccumulateFrom(cat: Catalog, items: seq<ItemQty>, acc: Totals): Result<Totals, FoodId>
  {
    if items == [] then Success(acc)
    else if items[0].foodId !in cat then Failure(items[0].foodId)
    else AccumulateFrom(cat, items[1..], AddItem(acc, cat[items[0].foodId], items[0].quantity))
  }

  /** One loop iteration: `itemTotal = cost * quantity` and the three shares
      `itemTotal * rate / 100` (main.js:1195-1200). */
  function AddItem(acc: Totals, f: FoodItem, quantity: int): Totals
  {
    var itemTotal := f.cost * quantity as real;
    Totals(acc.price + itemTotal,
           acc.sgst + itemTotal * f.sgst / 100.0,
           acc.cgst + itemTotal * f.cgst / 100.0,
           acc.tax + itemTotal * f.tax / 100.0)
  }

  lemma {:induction false} AccumulateFromMeetsSums(cat: Catalog, items: seq<ItemQty>, acc: Totals)
    ensures Known(cat, items) ==>
              AccumulateFrom(cat, items, acc) == Success(AddTotals(acc, CatalogTotals(cat, items)))
    ensures !Known(cat, items) ==>
              AccumulateFrom(cat, items, acc) == Failure(items[FirstUnknown(cat, items)].foodId)
    decreases |items|
  {
    if items != [] {
      var rest := items[1..];
      assert Known(cat, items) ==> Known(cat, rest) by {
        if Known(cat, items) {
          forall i | 0 <= i < |rest| ensures rest[i].foodId in cat {
            assert rest[i] == items[i + 1];
          }
        }
      }
      if items[0].foodId in cat {
        assert !Known(cat, items) ==> !Known(cat, rest) by {
          if !Known(cat, items) {
            var i :| 0 <= i < |items| && items[i].foodId !in cat;
            assert rest[i - 1] == items[i];
          }
        }
        var acc' := AddItem(acc, cat[items[0].foodId], items[0].quantity);
        AccumulateFromMeetsSums(cat, rest, acc');
        if Known(cat, items) {
          var f := cat[items[0].foodId];
          assert CostSum(cat, items) == LineCost(cat, items[0]) + CostSum(cat, rest);
          assert forall l :: LevySum(cat, items, l)
                             == LineCost(cat, items[0]) * Rate(f, l) / 100.0 + LevySum(cat, rest, l);
          assert Rate(f, Sgst) == f.sgst && Rate(f, Cgst) == f.cgst && Rate(f, Tax) == f.tax;
          assert AddTotals(acc', CatalogTotals(cat, rest)) == AddTotals(acc, CatalogTotals(cat, items));
        } else {
          assert FirstUnknown(cat, items) == 1 + FirstUnknown(cat, rest);
        }
      }
    }
  }

  /** The lookup-and-accumulate loop run from zero totals. It fails exactly
      when some entry is unknown, naming the first such id, and otherwise
      yields the catalog sums: the tax columns never see a caller's total. */
  function Accumulate(cat: Catalog, items: seq<ItemQty>): (r: Result<Totals, FoodId>)
    ensures r.Failure? <==> !Known(cat, items)
    ensures r.Failure? ==> r.error == items[FirstUnknown(cat, items)].foodId
    ensures r.Success? ==> r.value == CatalogTotals(cat, items)
  {
    AccumulateFromMeetsSums(cat, items, Totals(0.0, 0.0, 0.0, 0.0));
    AccumulateFrom(cat, items, Totals(0.0, 0.0, 0.0, 0.0))
  }

  lemma {:induction false} CostSumAppend(cat: Catalog, a: seq<ItemQty>, b: seq<ItemQty>)
    requires Known(cat, a) && Known(cat, b)
    ensures Known(cat, a + b)
    ensures CostSum(cat, a + b) == CostSum(cat, a) + CostSum(cat, b)
    ensures forall l :: LevySum(cat, a + b, l) == LevySum(cat, a, l) + LevySum(cat, b, l)
    decreases |a|
  {
    assert Known(cat, a + b) by {
      forall i | 0 <= i < |a + b| ensures (a + b)[i].foodId in cat {
        if i < |a| { assert (a + b)[i] == a[i]; } else { assert (a + b)[i] == b[i - |a|]; }
      }
    }
    if a != [] {
      assert (a + b)[1..] == a[1..] + b;
      assert Known(cat, a[1..]) by {
        forall i | 0 <= i < |a[1..]| ensures a[1..][i].foodId in cat {
          assert a[1..][i] == a[i + 1];
        }
      }
      CostSumAppend(cat, a[1..], b);
    } else {
      assert a + b == b;
    }
  }

  /** Value a 0/1 flag takes after `CASE WHEN flag = 1 THEN 0 ELSE 1 END`. */
  function Toggled(flag: int): (r: int)
    ensures r == 0 || r == 1
    ensures r == 1 <==> flag != 1
  {
    if flag == 1 then 0 else 1
  }

  datatype Flag = IsOn | Active

  function FlagOf(f: FoodItem, which: Flag): int
  {
    match which
    case IsOn => f.isOn
    case Active => f.active
  }

  /** The `toggle-menu-item` / `toggle-menu-item-active` handlers: flip the
      chosen flag of one row and read it back; an unknown id changes nothing
      and reads back null. */
  function ToggleFlag(cat: Catalog, fid: FoodId, which: Flag): (r: (Catalog, Option<int>))
    ensures r.0.Keys == cat.Keys
    ensures forall g :: g in cat && g != fid ==> r.0[g] == cat[g]
    ensures fid !in cat ==> r.1 == None
    ensures fid in cat ==>
              && r.1 == Some(FlagOf(r.0[fid], which))
              && (FlagOf(r.0[fid], which) == 1 <==> FlagOf(cat[fid], which) != 1)
              && FlagOf(r.0[fid], which) == Toggled(FlagOf(cat[fid], which))
              && r.0[fid].name == cat[fid].name && r.0[fid].cost == cat[fid].cost
              && r.0[fid].category == cat[fid].category
              && r.0[fid].sgst == cat[fid].sgst && r.0[fid].cgst == cat[fid].cgst
              && r.0[fid].tax == cat[fid].tax
              && FlagOf(r.0[fid], if which == IsOn then Active else IsOn)
                 == FlagOf(cat[fid], if which == IsOn then Active else IsOn)
  {
    if fid !in cat then (cat, None)
    else
      var f := cat[fid];
      var g := match which
               case IsOn => f.(isOn := Toggled(f.isOn))
               case Active => f.(active := Toggled(f.active));
      (cat[fid := g], Some(FlagOf(g, which)))
  }

  /** Two toggles restore a 0/1 flag, but a flag holding any other value
      comes back as 0, not as itself. */
  lemma ToggleTwice(cat: Catalog, fid: FoodId, which: Flag)
    requires fid in cat
    ensures var once := ToggleFlag(cat, fid, which).0;
            var twice := ToggleFlag(once, fid, which).0;
            FlagOf(twice[fid], which) == (if FlagOf(cat[fid], which) == 1 then 1 else 0)
  {
  }
}

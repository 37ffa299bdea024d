/**
 * The menu's per-item quantity picker and its ADD button (ui.js:43-89).
 */
module Menu {
  import opened Wrappers
  import opened Catalog
  import opened Billing

  /** Every picker starts at 1 (ui.js:43). */
  const InitialQuantity := 1

  datatype Button = Minus | Plus

  /** One click: "−" lowers the value only while it is above 1, "+" adds 1. */
  function Press(current: int, button: Button): (next: int)
    ensures button == Plus ==> next == current + 1
    ensures button == Minus && current > 1 ==> next == current - 1
    ensures button == Minus && current <= 1 ==> next == current
  {
    match button
    case Minus => if current > 1 then current - 1 else current
    case Plus => current + 1
  }

  /** The picker value after a sequence of clicks, from the initial 1. */
  function Picker(clicks: seq<Button>): int
    decreases |clicks|
  {
    if clicks == [] then InitialQuantity
    else Press(Picker(clicks[..|clicks| - 1]), clicks[|clicks| - 1])
  }

  function Count(clicks: seq<Button>, b: Button): nat
    decreases |clicks|
  {
    if clicks == [] then 0
    else Count(clicks[..|clicks| - 1], b) + (if clicks[|clicks| - 1] == b then 1 else 0)
  }

  /** The picker never shows less than 1, and never more than 1 plus the
      number of "+" clicks. */
  lemma {:induction false} PickerAtLeastOne(clicks: seq<Button>)
    ensures 1 <= Picker(clicks) <= 1 + Count(clicks, Plus)
    decreases |clicks|
  {
    if clicks != [] {
      PickerAtLeastOne(clicks[..|clicks| - 1]);
    }
  }

  /** With only "+" clicks the picker shows 1 plus their number. */
  lemma {:induction false} PlusOnly(clicks: seq<Button>)
    requires forall i :: 0 <= i < |clicks| ==> clicks[i] == Plus
    ensures Picker(clicks) == 1 + |clicks|
    decreases |clicks|
  {
    if clicks != [] {
      PlusOnly(clicks[..|clicks| - 1]);
    }
  }

  /** The ADD handler (ui.js:57-65): id, name, the card's cost as price
      and the picker's current value go to `addToBill`. Because the picker
      is at least 1, the quantity guard always passes. */
  function AddFromMenu(b: Bill, id: FoodId, item: FoodItem, clicks: seq<Button>): (r: Result<Bill, BillError>)
    ensures r.Success? && r.value.discountField == b.discountField
    ensures |r.value.lines| == |b.lines| + (if Find(b.lines, id).None? then 1 else 0)
    ensures Find(b.lines, id).None? ==>
              && r.value.lines[..|b.lines|] == b.lines
              && r.value.lines[|b.lines|] == Line(id, item.name, item.cost, Picker(clicks),
                                                  item.cost * Picker(clicks) as real)
    ensures Find(b.lines, id).Some? ==>
              var k := Find(b.lines, id).value;
              && r.value.lines[k].quantity == b.lines[k].quantity + Picker(clicks)
              && r.value.lines[k].total == item.cost * r.value.lines[k].quantity as real
  {
    PickerAtLeastOne(clicks);
    var q := Picker(clicks);
    var r := AddToBill(b, id, item.name, item.cost, q);
    assert Find(b.lines, id).None? ==> r.value.lines[..|b.lines|] == b.lines && r.value.lines[|b.lines|].quantity == q;
    r
  }
}

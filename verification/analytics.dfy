/**
 * The JavaScript post-processing the analytics handlers apply to the rows
 * their queries return. The queries themselves are not modelled: each
 * reducer takes the result rows as given, in the order the query's
 * `ORDER BY` produces them.
 */
module Analytics {
  import opened Wrappers

  /** One `(date, name, SUM(quantity))` row of the top-selling queries
      (main.js:502-514 for categories, main.js:1411-1421 for items). */
  datatype SalesRow = SalesRow(date: string, name: string, quantity: int)

  /** The dates of `rows` in order of first appearance. */
  function Dates(rows: seq<SalesRow>): (r: seq<string>)
    ensures forall d :: d in r <==> exists j :: 0 <= j < |rows| && rows[j].date == d
    ensures forall i, k :: 0 <= i < k < |r| ==> r[i] != r[k]
  {
    if rows == [] then []
    else
      var init := rows[..|rows| - 1];
      var d := Dates(init);
      var last := rows[|rows| - 1];
      assert forall j :: 0 <= j < |init| ==> init[j] == rows[j];
      if last.date in d then d else d + [last.date]
  }

  /** The largest quantity on `date`, `None` when no row has that date. */
  function MaxQty(rows: seq<SalesRow>, date: string): (m: Option<int>)
    ensures m.None? <==> forall j :: 0 <= j < |rows| ==> rows[j].date != date
    ensures m.Some? ==> exists j :: 0 <= j < |rows| && rows[j].date == date && rows[j].quantity == m.value
    ensures m.Some? ==> forall j :: 0 <= j < |rows| && rows[j].date == date ==> rows[j].quantity <= m.value
  {
    if rows == [] then None
    else
      var init := rows[..|rows| - 1];
      var last := rows[|rows| - 1];
      var m := MaxQty(init, date);
      assert forall j :: 0 <= j < |init| ==> init[j] == rows[j];
      if last.date != date then m
      else if m.None? || last.quantity > m.value then Some(last.quantity)
      else m
  }

  /** The first row on `date` carrying `quantity`. */
  function FirstAt(rows: seq<SalesRow>, date: string, quantity: int): (r: Option<nat>)
    ensures r.Some? ==> r.value < |rows| && rows[r.value].date == date && rows[r.value].quantity == quantity
    ensures r.Some? ==> forall j :: 0 <= j < r.value ==> !(rows[j].date == date && rows[j].quantity == quantity)
    ensures r.None? <==> forall j :: 0 <= j < |rows| ==> !(rows[j].date == date && rows[j].quantity == quantity)
  {
    if rows == [] then None
    else
      var init := rows[..|rows| - 1];
      var last := rows[|rows| - 1];
      var f := FirstAt(init, date, quantity);
      assert forall j :: 0 <= j < |init| ==> init[j] == rows[j];
      if f.Some? then f
      else if last.date == date && last.quantity == quantity then Some(|rows| - 1)
      else None
  }

  /** The names of all rows on `date` carrying `quantity`, in row order. */
  function NamesAt(rows: seq<SalesRow>, date: string, quantity: int): seq<string>
  {
    if rows == [] then []
    else
      var last := rows[|rows| - 1];
      NamesAt(rows[..|rows| - 1], date, quantity)
      + (if last.date == date && last.quantity == quantity then [last.name] else [])
  }

  lemma {:induction false} NamesAtNone(rows: seq<SalesRow>, date: string, quantity: int)
    requires forall j :: 0 <= j < |rows| && rows[j].date == date ==> rows[j].quantity != quantity
    ensures NamesAt(rows, date, quantity) == []
    decreases |rows|
  {
    if rows != [] {
      var init := rows[..|rows| - 1];
      assert forall j :: 0 <= j < |init| ==> init[j] == rows[j];
      NamesAtNone(init, date, quantity);
    }
  }

  /** A JavaScript object keyed by date: its keys in insertion order (what
      `Object.keys` lists for non-numeric keys) and its values. */
  datatype Tally<E> = Tally(order: seq<string>, best: map<string, E>)

  ghost predicate KeysListed<E>(t: Tally<E>)
  {
    forall d :: d in t.best <==> d in t.order
  }

  datatype CategoryBest = CategoryBest(name: string, quantity: int)

  /** One `forEach` step of `get-top-selling-categories` (main.js:525-536):
      the first row of a date is kept until a row with a strictly larger
      quantity replaces it. */
  function CategoryStep(t: Tally<CategoryBest>, row: SalesRow): Tally<CategoryBest>
  {
    if row.date !in t.best then
      Tally(t.order + [row.date], t.best[row.date := CategoryBest(row.name, row.quantity)])
    else if row.quantity > t.best[row.date].quantity then
      Tally(t.order, t.best[row.date := CategoryBest(row.name, row.quantity)])
    else t
  }

  function CategoryTally(rows: seq<SalesRow>): (t: Tally<CategoryBest>)
    ensures KeysListed(t)
  {
    if rows == [] then Tally([], map[])
    else CategoryStep(CategoryTally(rows[..|rows| - 1]), rows[|rows| - 1])
  }

  /** What the tally of `rows` holds: one entry per date in first-appearance
      order, carrying that date's largest quantity and the name on the
      first row that reached it. */
  ghost predicate CategoryMeets(rows: seq<SalesRow>, t: Tally<CategoryBest>)
  {
    && t.order == Dates(rows)
    && KeysListed(t)
    && forall d :: d in t.best ==>
         && MaxQty(rows, d) == Some(t.best[d].quantity)
         && FirstAt(rows, d, t.best[d].quantity).Some?
         && t.best[d].name == rows[FirstAt(rows, d, t.best[d].quantity).value].name
  }

  lemma MaxQtyAppend(rows: seq<SalesRow>, row: SalesRow, d: string)
    ensures MaxQty(rows + [row], d)
            == if row.date != d then MaxQty(rows, d)
               else if MaxQty(rows, d).None? || row.quantity > MaxQty(rows, d).value then Some(row.quantity)
               else MaxQty(rows, d)
  {
  }

  lemma FirstAtAppend(rows: seq<SalesRow>, row: SalesRow, d: string, q: int)
    ensures FirstAt(rows + [row], d, q)
            == if FirstAt(rows, d, q).Some? then FirstAt(rows, d, q)
               else if row.date == d && row.quantity == q then Some(|rows|)
               else None
  {
  }

  /** The entry of the row's own date after the step. */
  lemma CategoryStepOwnDate(rows: seq<SalesRow>, row: SalesRow, t: Tally<CategoryBest>)
    requires CategoryMeets(rows, t)
    ensures var t1 := CategoryStep(t, row);
            var d := row.date;
            var all := rows + [row];
            && d in t1.best
            && MaxQty(all, d) == Some(t1.best[d].quantity)
            && FirstAt(all, d, t1.best[d].quantity).Some?
            && t1.best[d].name == all[FirstAt(all, d, t1.best[d].quantity).value].name
  {
  }

  /** The entries of the other dates are untouched by the step. */
  lemma CategoryStepOtherDate(rows: seq<SalesRow>, row: SalesRow, t: Tally<CategoryBest>, d: string)
    requires CategoryMeets(rows, t)
    requires d in t.best && d != row.date
    ensures var t1 := CategoryStep(t, row);
            var all := rows + [row];
            && d in t1.best && t1.best[d] == t.best[d]
            && MaxQty(all, d) == Some(t1.best[d].quantity)
            && FirstAt(all, d, t1.best[d].quantity).Some?
            && t1.best[d].name == all[FirstAt(all, d, t1.best[d].quantity).value].name
  {
    var all := rows + [row];
    MaxQtyAppend(rows, row, d);
    FirstAtAppend(rows, row, d, t.best[d].quantity);
    var j := FirstAt(rows, d, t.best[d].quantity).value;
    assert all[j] == rows[j];
  }

  lemma DatesAppend(rows: seq<SalesRow>, row: SalesRow)
    ensures Dates(rows + [row]) == if row.date in Dates(rows) then Dates(rows) else Dates(rows) + [row.date]
  {
  }

  lemma CategoryStepMeets(rows: seq<SalesRow>, row: SalesRow, t: Tally<CategoryBest>)
    requires CategoryMeets(rows, t)
    ensures CategoryMeets(rows + [row], CategoryStep(t, row))
  {
    var t1 := CategoryStep(t, row);
    DatesAppend(rows, row);
    CategoryStepOwnDate(rows, row, t);
    forall d | d in t1.best && d != row.date
      ensures MaxQty(rows + [row], d) == Some(t1.best[d].quantity)
      ensures FirstAt(rows + [row], d, t1.best[d].quantity).Some?
      ensures t1.best[d].name == (rows + [row])[FirstAt(rows + [row], d, t1.best[d].quantity).value].name
    {
      CategoryStepOtherDate(rows, row, t, d);
    }
  }

  lemma {:induction false} CategoryTallyMeets(rows: seq<SalesRow>)
    ensures CategoryMeets(rows, CategoryTally(rows))
    decreases |rows|
  {
    if rows != [] {
      var init := rows[..|rows| - 1];
      CategoryTallyMeets(init);
      CategoryStepMeets(init, rows[|rows| - 1], CategoryTally(init));
      assert init + [rows[|rows| - 1]] == rows;
    }
  }

  /** One element of the `categoriesArray` sent to the renderer. */
  datatype TopCategory = TopCategory(date: string, categoryName: string, totalQuantity: int)

  function TopSellingCategories(rows: seq<SalesRow>): (r: seq<TopCategory>)
    ensures |r| == |CategoryTally(rows).order|
  {
    var t := CategoryTally(rows);
    seq(|t.order|, i requires 0 <= i < |t.order| =>
      TopCategory(t.order[i], t.best[t.order[i]].name, t.best[t.order[i]].quantity))
  }

  /** The top category per date: one entry per date, in first-appearance
      order, holding that date's largest quantity; among rows tied at that
      quantity the first one wins. */
  lemma TopCategoryIsFirstMax(rows: seq<SalesRow>)
    ensures var r := TopSellingCategories(rows);
            && |r| == |Dates(rows)|
            && forall i :: 0 <= i < |r| ==>
                 && r[i].date == Dates(rows)[i]
                 && MaxQty(rows, r[i].date) == Some(r[i].totalQuantity)
                 && FirstAt(rows, r[i].date, r[i].totalQuantity).Some?
                 && r[i].categoryName == rows[FirstAt(rows, r[i].date, r[i].totalQuantity).value].name
  {
    CategoryTallyMeets(rows);
  }

  datatype ItemsBest = ItemsBest(names: seq<string>, quantity: int)

  /** One `forEach` step of `get-top-selling-items` (main.js:1432-1441): a
      row tying the date's current quantity is added to its list, a row
      with a larger one starts a new list. */
  function ItemsStep(t: Tally<ItemsBest>, row: SalesRow): Tally<ItemsBest>
  {
    if row.date !in t.best then
      Tally(t.order + [row.date], t.best[row.date := ItemsBest([row.name], row.quantity)])
    else if row.quantity == t.best[row.date].quantity then
      Tally(t.order, t.best[row.date := t.best[row.date].(names := t.best[row.date].names + [row.name])])
    else if row.quantity > t.best[row.date].quantity then
      Tally(t.order, t.best[row.date := ItemsBest([row.name], row.quantity)])
    else t
  }

  function ItemsTally(rows: seq<SalesRow>): (t: Tally<ItemsBest>)
    ensures KeysListed(t)
  {
    if rows == [] then Tally([], map[])
    else ItemsStep(ItemsTally(rows[..|rows| - 1]), rows[|rows| - 1])
  }

  ghost predicate ItemsMeet(rows: seq<SalesRow>, t: Tally<ItemsBest>)
  {
    && t.order == Dates(rows)
    && KeysListed(t)
    && forall d :: d in t.best ==>
         && MaxQty(rows, d) == Some(t.best[d].quantity)
         && t.best[d].names == NamesAt(rows, d, t.best[d].quantity)
  }

  lemma ItemsStepMeets(rows: seq<SalesRow>, row: SalesRow, t: Tally<ItemsBest>)
    requires ItemsMeet(rows, t)
    ensures ItemsMeet(rows + [row], ItemsStep(t, row))
  {
    var all := rows + [row];
    assert all[..|all| - 1] == rows;
    assert forall j :: 0 <= j < |rows| ==> all[j] == rows[j];
    var t1 := ItemsStep(t, row);
    forall d | d in t1.best
      ensures MaxQty(all, d) == Some(t1.best[d].quantity)
      ensures t1.best[d].names == NamesAt(all, d, t1.best[d].quantity)
    {
      if d == row.date && (d !in t.best || row.quantity > t.best[d].quantity) {
        NamesAtNone(rows, d, row.quantity);
      }
    }
  }

  lemma {:induction false} ItemsTallyMeets(rows: seq<SalesRow>)
    ensures ItemsMeet(rows, ItemsTally(rows))
    decreases |rows|
  {
    if rows != [] {
      var init := rows[..|rows| - 1];
      ItemsTallyMeets(init);
      ItemsStepMeets(init, rows[|rows| - 1], ItemsTally(init));
      assert init + [rows[|rows| - 1]] == rows;
    }
  }

  /** `Array.prototype.join(sep)`. */
  function Join(parts: seq<string>, sep: string): string
  {
    if parts == [] then ""
    else if |parts| == 1 then parts[0]
    else parts[0] + sep + Join(parts[1..], sep)
  }

  /** One element of the `itemsArray` sent to the renderer
      (main.js:1444-1447). */
  datatype MostSold = MostSold(date: string, mostSoldItem: string)

  function TopSellingItems(rows: seq<SalesRow>): (r: seq<MostSold>)
    ensures |r| == |ItemsTally(rows).order|
  {
    var t := ItemsTally(rows);
    seq(|t.order|, i requires 0 <= i < |t.order| =>
      MostSold(t.order[i], Join(t.best[t.order[i]].names, ", ")))
  }

  /** The top items per date: one entry per date, in first-appearance
      order, naming every row that reaches the date's largest quantity, in
      row order, joined with ", ". */
  lemma TopItemsAreAllMaxima(rows: seq<SalesRow>)
    ensures var r := TopSellingItems(rows);
            && |r| == |Dates(rows)|
            && forall i :: 0 <= i < |r| ==>
                 && r[i].date == Dates(rows)[i]
                 && MaxQty(rows, r[i].date).Some?
                 && r[i].mostSoldItem == Join(NamesAt(rows, r[i].date, MaxQty(rows, r[i].date).value), ", ")
  {
    ItemsTallyMeets(rows);
  }

  /** Two items tied on one date are both named, where the category
      reducer keeps only the first. */
  lemma TieExample()
    ensures var rows := [SalesRow("2025-01-02", "Lassi", 4), SalesRow("2025-01-02", "Falooda", 4)];
            && TopSellingItems(rows) == [MostSold("2025-01-02", "Lassi, Falooda")]
            && TopSellingCategories(rows) == [TopCategory("2025-01-02", "Lassi", 4)]
  {
    var rows := [SalesRow("2025-01-02", "Lassi", 4), SalesRow("2025-01-02", "Falooda", 4)];
    assert rows[..1] == [rows[0]] && rows[..1][..0] == [];
    var t0 := ItemsTally(rows[..1]);
    assert t0 == ItemsStep(ItemsTally([]), rows[0]);
    assert ([] + ["2025-01-02"]) == ["2025-01-02"];
    assert t0 == Tally(["2025-01-02"], map["2025-01-02" := ItemsBest(["Lassi"], 4)]);
    var t := ItemsTally(rows);
    assert t == ItemsStep(t0, rows[1]);
    assert t.order == ["2025-01-02"];
    assert t.best["2025-01-02"].names == ["Lassi", "Falooda"];
    var c0 := CategoryTally(rows[..1]);
    assert c0 == CategoryStep(CategoryTally([]), rows[0]);
    assert c0 == Tally(["2025-01-02"], map["2025-01-02" := CategoryBest("Lassi", 4)]);
    assert CategoryTally(rows) == CategoryStep(c0, rows[1]) == c0;
    assert |TopSellingCategories(rows)| == 1;
    assert ["Lassi", "Falooda"][1..] == ["Falooda"];
    assert Join(["Lassi", "Falooda"], ", ") == "Lassi" + ", " + "Falooda" == "Lassi, Falooda";
    assert |TopSellingItems(rows)| == 1;
    assert TopSellingItems(rows)[0] == MostSold("2025-01-02", "Lassi, Falooda");
  }

  /** One `(catname, totalRevenue)` row of `get-highest-revenue-category`,
      sorted by revenue, largest first (main.js:398-408). */
  datatype RevenueRow = RevenueRow(category: string, totalRevenue: real)

  /** The names of the rows whose revenue is `v`, in row order. */
  function NamesWithRevenue(rows: seq<RevenueRow>, v: real): (r: seq<string>)
    ensures |r| <= |rows|
  {
    if rows == [] then []
    else (if rows[0].totalRevenue == v then [rows[0].category] else []) + NamesWithRevenue(rows[1..], v)
  }

  /** The reducer (main.js:416-417): the first row's revenue, or 0 for no
      rows, then every category whose revenue equals it. */
  function HighestRevenueCategories(rows: seq<RevenueRow>): (r: seq<string>)
    ensures rows == [] ==> r == []
  {
    var top := if |rows| > 0 then rows[0].totalRevenue else 0.0;
    NamesWithRevenue(rows, top)
  }

  predicate SortedByRevenue(rows: seq<RevenueRow>)
  {
    forall i, j :: 0 <= i < j < |rows| ==> rows[i].totalRevenue >= rows[j].totalRevenue
  }

  lemma {:induction false} NamesWithRevenueMembers(rows: seq<RevenueRow>, v: real)
    ensures forall c :: c in NamesWithRevenue(rows, v) <==>
              exists j :: 0 <= j < |rows| && rows[j].category == c && rows[j].totalRevenue == v
    decreases |rows|
  {
    if rows != [] {
      NamesWithRevenueMembers(rows[1..], v);
      assert forall j :: 0 < j < |rows| ==> rows[j] == rows[1..][j - 1];
    }
  }

  /** On rows sorted by revenue, the reducer lists exactly the categories
      reaching the highest revenue of the day, and at least one of them
      when there is any row. */
  lemma HighestRevenueIsMaximum(rows: seq<RevenueRow>)
    requires SortedByRevenue(rows)
    ensures var r := HighestRevenueCategories(rows);
            && (rows != [] ==> r != [])
            && (forall c :: c in r ==>
                  exists j :: 0 <= j < |rows| && rows[j].category == c
                              && forall k :: 0 <= k < |rows| ==> rows[k].totalRevenue <= rows[j].totalRevenue)
            && (forall j :: 0 <= j < |rows| && (forall k :: 0 <= k < |rows| ==> rows[k].totalRevenue <= rows[j].totalRevenue)
                  ==> rows[j].category in r)
  {
    if rows != [] {
      var top := rows[0].totalRevenue;
      NamesWithRevenueMembers(rows, top);
      assert rows[0].category in HighestRevenueCategories(rows);
      forall j | 0 <= j < |rows| && (forall k :: 0 <= k < |rows| ==> rows[k].totalRevenue <= rows[j].totalRevenue)
        ensures rows[j].totalRevenue == top
      {
        assert rows[0].totalRevenue <= rows[j].totalRevenue;
        if j > 0 { assert rows[0].totalRevenue >= rows[j].totalRevenue; }
      }
    }
  }

  /** The position of the last `d` in `keys`. */
  function LastIndex(keys: seq<string>, d: string): (r: Option<nat>)
    ensures r.None? <==> d !in keys
    ensures r.Some? ==> r.value < |keys| && keys[r.value] == d
    ensures r.Some? ==> forall k :: r.value < k < |keys| ==> keys[k] != d
  {
    if keys == [] then None
    else if keys[|keys| - 1] == d then Some(|keys| - 1)
    else
      var init := keys[..|keys| - 1];
      assert forall k :: 0 <= k < |init| ==> init[k] == keys[k];
      assert d in keys ==> d in init;
      LastIndex(init, d)
  }

  /** `m[key] = value` for each pair in turn, as the `forEach` loops that
      build `salesMap`, `revenueMap` and `unitsMap` do: the last pair for a
      key wins. */
  function LatestBy<V>(keys: seq<string>, vals: seq<V>): (m: map<string, V>)
    requires |keys| == |vals|
    ensures forall d :: d in m <==> LastIndex(keys, d).Some?
    ensures forall d :: d in m ==> m[d] == vals[LastIndex(keys, d).value]
  {
    if keys == [] then map[]
    else
      var n := |keys| - 1;
      var m := LatestBy(keys[..n], vals[..n]);
      assert forall j :: 0 <= j < n ==> vals[..n][j] == vals[j];
      m[keys[n] := vals[n]]
  }

  /** One `(date, COUNT(billno), COALESCE(SUM(price), 0))` row and one
      `(date, COALESCE(SUM(quantity), 0))` row of `seven-day-sales`
      (main.js:701-722). */
  datatype SalesDay = SalesDay(date: string, salesCount: int, totalRevenue: real)
  datatype UnitsDay = UnitsDay(date: string, unitsSold: int)

  /** The date column of a result set. */
  function DatesOf<R>(rows: seq<R>, dateOf: R -> string): (r: seq<string>)
    ensures |r| == |rows| && forall j :: 0 <= j < |rows| ==> r[j] == dateOf(rows[j])
  {
    seq(|rows|, j requires 0 <= j < |rows| => dateOf(rows[j]))
  }

  function SalesDate(row: SalesDay): string { row.date }
  function UnitsDate(row: UnitsDay): string { row.date }

  datatype SevenDayResponse = SevenDayResponse(dates: seq<string>, salesCounts: seq<int>,
                                               totalRevenues: seq<real>, unitsSold: seq<int>)

  /** `map[d] || 0`: a missing key reads as 0; so does a stored 0. */
  function OrZero<V>(m: map<string, V>, d: string, zero: V): V
  {
    if d in m then m[d] else zero
  }

  /** The zero-fill (main.js:741-763): one entry per date of the range, in
      range order, carrying the last row for that date or 0 when the date
      had no orders. */
  function SevenDaySales(dateRows: seq<string>, salesRows: seq<SalesDay>, unitsRows: seq<UnitsDay>)
    : (r: SevenDayResponse)
    ensures r.dates == dateRows
    ensures |r.salesCounts| == |r.totalRevenues| == |r.unitsSold| == |dateRows|
    ensures forall i :: 0 <= i < |dateRows| ==>
              match LastIndex(DatesOf(salesRows, SalesDate), dateRows[i])
              case Some(j) => r.salesCounts[i] == salesRows[j].salesCount
                              && r.totalRevenues[i] == salesRows[j].totalRevenue
              case None => r.salesCounts[i] == 0 && r.totalRevenues[i] == 0.0
    ensures forall i :: 0 <= i < |dateRows| ==>
              match LastIndex(DatesOf(unitsRows, UnitsDate), dateRows[i])
              case Some(j) => r.unitsSold[i] == unitsRows[j].unitsSold
              case None => r.unitsSold[i] == 0
  {
    var salesKeys := DatesOf(salesRows, SalesDate);
    var unitsKeys := DatesOf(unitsRows, UnitsDate);
    var salesMap := LatestBy(salesKeys, seq(|salesRows|, j requires 0 <= j < |salesRows| => salesRows[j].salesCount));
    var revenueMap := LatestBy(salesKeys, seq(|salesRows|, j requires 0 <= j < |salesRows| => salesRows[j].totalRevenue));
    var unitsMap := LatestBy(unitsKeys, seq(|unitsRows|, j requires 0 <= j < |unitsRows| => unitsRows[j].unitsSold));
    SevenDayResponse(
      dateRows,
      seq(|dateRows|, i requires 0 <= i < |dateRows| => OrZero(salesMap, dateRows[i], 0)),
      seq(|dateRows|, i requires 0 <= i < |dateRows| => OrZero(revenueMap, dateRows[i], 0.0)),
      seq(|dateRows|, i requires 0 <= i < |dateRows| => OrZero(unitsMap, dateRows[i], 0)))
  }
}

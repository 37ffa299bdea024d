/**
 * The category-wise sales table of the renderer (categoryWiseTable.js):
 * the filter check before a request, the re-request after a deletion, the
 * column sort toggle, the row comparator and the column indicator.
 */
module CategoryTable {
  import opened Wrappers

  /** The renderer's `sessionStorage`. */
  type Session = map<string, string>

  const StartKey := "categoryWiseStartDate"
  const EndKey := "categoryWiseEndDate"
  const CategoryKey := "categoryWiseCategory"

  /** A string is truthy when present and non-empty. */
  predicate Truthy(v: Option<string>)
  {
    v.Some? && v.value != ""
  }

  /** What `fetchCategoryWise` does: show a popup or send the request. */
  datatype FetchOutcome = Popup(message: string) | Request(startDate: string, endDate: string, category: string)

  const DatesMissing := "Please select both start and end dates."
  const CategoryMissing := "Please select a category."

  /** An argument that is falsy is replaced by the matching input's
      value. */
  function OrInput(arg: Option<string>, input: string): string
  {
    if Truthy(arg) then arg.value else input
  }

  /** `fetchCategoryWise` (categoryWiseTable.js:95-118). `startInput`,
      `endInput` and `categoryInput` are the current values of the two date
      inputs and the category dropdown. */
  function FetchCategoryWise(s: Session, startDate: Option<string>, endDate: Option<string>, category: Option<string>,
                             startInput: string, endInput: string, categoryInput: string): (r: (Session, FetchOutcome))
    ensures var st := OrInput(startDate, startInput);
            var en := OrInput(endDate, endInput);
            var cat := OrInput(category, categoryInput);
            && (st == "" || en == "" ==> r == (s, Popup(DatesMissing)))
            && (st != "" && en != "" && cat == "" ==> r == (s, Popup(CategoryMissing)))
            && (st != "" && en != "" && cat != "" ==>
                  && r.1 == Request(st, en, cat)
                  && r.0 == s[StartKey := st][EndKey := en][CategoryKey := cat])
  {
    var st := OrInput(startDate, startInput);
    var en := OrInput(endDate, endInput);
    var cat := OrInput(category, categoryInput);
    if st == "" || en == "" then (s, Popup(DatesMissing))
    else if cat == "" then (s, Popup(CategoryMissing))
    else (s[StartKey := st][EndKey := en][CategoryKey := cat], Request(st, en, cat))
  }

  /** The `refresh-order-history` listener (categoryWiseTable.js:200-210):
      re-sends the stored filters when all three are set. */
  function Refresh(s: Session): (r: Option<FetchOutcome>)
    ensures r.Some? <==> (StartKey in s && s[StartKey] != "" && EndKey in s && s[EndKey] != ""
                          && CategoryKey in s && s[CategoryKey] != "")
    ensures r.Some? ==> r.value == Request(s[StartKey], s[EndKey], s[CategoryKey])
  {
    if StartKey in s && s[StartKey] != "" && EndKey in s && s[EndKey] != "" && CategoryKey in s && s[CategoryKey] != ""
    then Some(Request(s[StartKey], s[EndKey], s[CategoryKey]))
    else None
  }

  /** After a request was sent, a deletion elsewhere re-sends exactly the
      same request; a popup leaves what a refresh would send unchanged. */
  lemma RefreshRepeatsLastRequest(s: Session, startDate: Option<string>, endDate: Option<string>,
                                  category: Option<string>, startInput: string, endInput: string, categoryInput: string)
    ensures var r := FetchCategoryWise(s, startDate, endDate, category, startInput, endInput, categoryInput);
            && (r.1.Request? ==> Refresh(r.0) == Some(r.1))
            && (r.1.Popup? ==> Refresh(r.0) == Refresh(s))
  {
  }

  datatype Order = Asc | Desc

  /** The module's `currentSortByCategoryWise` (`None` is `null`) and
      `currentSortOrderCategoryWise`. */
  datatype SortState = SortState(column: Option<string>, order: Order)

  const InitialSort := SortState(None, Asc)

  function Flip(o: Order): (r: Order)
    ensures r != o
  {
    if o == Asc then Desc else Asc
  }

  /** `sortCategoryWiseTable` (categoryWiseTable.js:212-214): sets the
      column and flips the direction, whether or not the column changed. */
  function SortCategoryWiseTable(st: SortState, column: string): (r: SortState)
    ensures r.column == Some(column)
    ensures r.order != st.order
  {
    SortState(Some(column), Flip(st.order))
  }

  /** Two clicks on the same column, or on two different ones, restore the
      direction; the first click after loading sorts descending. */
  lemma ToggleTwice(st: SortState, c1: string, c2: string)
    ensures SortCategoryWiseTable(SortCategoryWiseTable(st, c1), c2).order == st.order
    ensures SortCategoryWiseTable(InitialSort, c1).order == Desc
  {
  }

  /** `getSortIndicatorCategoryWise` (categoryWiseTable.js:242-247). */
  function SortIndicator(st: SortState, column: string): (r: string)
    ensures st.column != Some(column) ==> r == ""
    ensures st.column == Some(column) && st.order == Asc ==> r == "▲"
    ensures st.column == Some(column) && st.order == Desc ==> r == "▼"
  {
    if st.column == Some(column) then (if st.order == Asc then "▲" else "▼") else ""
  }

  /** After any click exactly one column shows an indicator. */
  lemma OneIndicator(st: SortState, clicked: string, other: string)
    requires other != clicked
    ensures SortIndicator(SortCategoryWiseTable(st, clicked), clicked) != ""
    ensures SortIndicator(SortCategoryWiseTable(st, clicked), other) == ""
  {
  }

  /** A cell of a sales row: absent (`undefined`), a string or a number. */
  datatype Value = Missing | Str(s: string) | Num(n: real)

  type Row = map<string, Value>

  function Cell(row: Row, key: string): Value
  {
    if key in row then row[key] else Missing
  }

  predicate Falsy(v: Value)
  {
    v == Missing || v == Str("") || v == Num(0.0)
  }

  /** What one comparator call yields: a number, NaN, or a thrown
      TypeError, which aborts the sort. */
  datatype Comparison = Compared(v: real) | NaN | Throws

  /** `sortData` (categoryWiseTable.js:232-240). `localeCompare` is the
      engine's string collation, `toNumber` the string-to-number conversion
      of `number - string` (`None` for text that is not a number), and
      `numberText` the number-to-string conversion of
      `string.localeCompare(number)`. A descending comparison of a string
      cell with a number cell calls `localeCompare` on the number, which
      numbers do not have. */
  function SortData(a: Row, b: Row, key: string, order: Order,
                    localeCompare: (string, string) -> int,
                    toNumber: string -> Option<real>,
                    numberText: real -> string): (r: Comparison)
    ensures Falsy(Cell(a, key)) || Falsy(Cell(b, key)) ==> r == Compared(0.0)
    ensures !Falsy(Cell(a, key)) && !Falsy(Cell(b, key)) && Cell(a, key).Str? && Cell(b, key).Str? ==>
              r == Compared((if order == Asc then localeCompare(Cell(a, key).s, Cell(b, key).s)
                             else localeCompare(Cell(b, key).s, Cell(a, key).s)) as real)
    ensures !Falsy(Cell(a, key)) && !Falsy(Cell(b, key)) && Cell(a, key).Num? && Cell(b, key).Num? ==>
              r == Compared(if order == Asc then Cell(a, key).n - Cell(b, key).n else Cell(b, key).n - Cell(a, key).n)
    ensures !Falsy(Cell(a, key)) && !Falsy(Cell(b, key)) && Cell(a, key).Str? && Cell(b, key).Num? ==>
              r == (if order == Asc then Compared(localeCompare(Cell(a, key).s, numberText(Cell(b, key).n)) as real)
                    else Throws)
    ensures !Falsy(Cell(a, key)) && !Falsy(Cell(b, key)) && Cell(a, key).Num? && Cell(b, key).Str? ==>
              r == match toNumber(Cell(b, key).s)
                   case None => NaN
                   case Some(y) => Compared(if order == Asc then Cell(a, key).n - y else y - Cell(a, key).n)
  {
    var x := Cell(a, key);
    var y := Cell(b, key);
    if Falsy(x) || Falsy(y) then Compared(0.0)
    else if x.Str? then
      if y.Str? then
        Compared((if order == Asc then localeCompare(x.s, y.s) else localeCompare(y.s, x.s)) as real)
      else if order == Asc then Compared(localeCompare(x.s, numberText(y.n)) as real)
      else Throws
    else
      var other := if y.Num? then Some(y.n) else toNumber(y.s);
      if other.None? then NaN
      else Compared(if order == Asc then x.n - other.value else other.value - x.n)
  }

  /** How `Array.prototype.sort` reads a comparator result that did not
      throw: NaN counts as 0 (equal). */
  function SortKey(r: Comparison): real
    requires !r.Throws?
  {
    if r.Compared? then r.v else 0.0
  }

  /** A string cell sorted descending against a number cell throws,
      whatever the collation: `"abc"` against `5`. */
  lemma DescendingStringAgainstNumberThrows(lc: (string, string) -> int,
                                            tn: string -> Option<real>, nt: real -> string)
    ensures var a := map["price" := Str("abc")];
            var b := map["price" := Num(5.0)];
            && SortData(a, b, "price", Desc, lc, tn, nt) == Throws
            && SortData(a, b, "price", Asc, lc, tn, nt).Compared?
  {
  }

  /** On numeric columns the descending comparison is the negated
      ascending one, and swapping the rows negates it too. */
  lemma NumericDescNegatesAsc(a: Row, b: Row, key: string, lc: (string, string) -> int,
                              tn: string -> Option<real>, nt: real -> string)
    requires Cell(a, key).Num? && Cell(b, key).Num?
    ensures SortKey(SortData(a, b, key, Desc, lc, tn, nt)) == -SortKey(SortData(a, b, key, Asc, lc, tn, nt))
    ensures SortKey(SortData(b, a, key, Asc, lc, tn, nt)) == -SortKey(SortData(a, b, key, Asc, lc, tn, nt))
  {
  }

  /** On string columns descending is ascending with the rows swapped. */
  lemma StringDescSwapsAsc(a: Row, b: Row, key: string, lc: (string, string) -> int,
                           tn: string -> Option<real>, nt: real -> string)
    requires Cell(a, key).Str? && Cell(b, key).Str?
    ensures SortData(a, b, key, Desc, lc, tn, nt) == SortData(b, a, key, Asc, lc, tn, nt)
  {
  }

  /** A number compared with a text cell that is not a number gives NaN,
      which the sort reads as "equal", whatever the direction. */
  lemma MixedCellsCompareEqual(a: Row, b: Row, key: string, order: Order, lc: (string, string) -> int,
                               tn: string -> Option<real>, nt: real -> string)
    requires Cell(a, key).Num? && Cell(a, key).n != 0.0
    requires Cell(b, key).Str? && Cell(b, key).s != "" && tn(Cell(b, key).s).None?
    ensures SortData(a, b, key, order, lc, tn, nt) == NaN
    ensures SortKey(SortData(a, b, key, order, lc, tn, nt)) == 0.0
  {
  }
}

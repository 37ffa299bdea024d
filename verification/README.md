# Order and bill lifecycle of the Lassi Corner point of sale

This project models the core of a small Electron point-of-sale app. It
covers the bill the cashier composes in the renderer: adding items from
the menu, editing and removing quantities, applying a discount, saving,
holding and resuming. It also covers the SQLite workflows in the main
process that turn a bill into durable records: `save-bill`, `hold-bill`,
held-order resume and delete, `add-to-existing-order`, `update-order` and
`confirm-delete-order`.

Alongside these it models the main process's small pure helpers:
- the receipt line layout;
- the printer-id validator;
- the password-to-role login;
- the menu `is_on`/`active` toggles;
- the JavaScript reducers applied to analytics query results.

It also models the filter check, column toggle, comparator and sort
indicator of the category-wise sales table.

Everything is a pure function over immutable values:
- A `Bill` is a sequence of lines plus the hidden `discounted-total` field.
- A `Store` holds the tables as maps keyed by bill number, held id and
  `(order, food)` key, plus the FoodItem catalog.
- A handler is a transition from one store to the next.

Money is exact (`real`). Receipt prices are whole paise, so two-decimal
rendering is exact.

Modules, one per file:
- `Wrappers` (wrappers.dfy): `Option` and `Result`.
- `Catalog` (catalog.dfy): the FoodItem table, the lookup-and-accumulate loop shared by save, hold and merge, and the menu toggles.
- `Billing` (billing.dfy): the renderer's bill (bill.js).
- `Menu` (menu.dfy): the menu's quantity picker and ADD button (ui.js).
- `Tables` (tables.dfy): the store and its row-level operations.
- `Persistence` (persistence.dfy): save, hold, resume and delete of held orders.
- `Amendments` (amendments.dfy): merge into, edit and delete of saved orders.
- `Receipt` (receipt.dfy): the receipt and kitchen-ticket item columns.
- `Settings` (settings.dfy): login and printer configuration.
- `Analytics` (analytics.dfy): the reducers of the analytics handlers.
- `CategoryTable` (category_table.dfy): the category-wise sales table.

Behaviours of the code that a reader might not expect, modelled as
written:
- `update-order` recomputes sgst and cgst as Σ rate × quantity, not
  Σ cost × quantity × rate / 100, and sets tax to sgst + cgst. This is
  modelled as written and logged as a finding below.
- `add-to-existing-order` has no missing-row guard. An unknown item fails
  after the earlier items' upserts were issued, and the totals are not
  updated. It is not an all-or-nothing rejection.
- A second resume of the same held order does not fail. The details query
  returns no rows, nothing is added, and the repeated delete changes
  nothing (`Persistence.ResumeIsSingleUse`).
- No handler checks for a missing order reference. `update-order` on an
  unknown bill number rewrites no header.
- The empty-bill refusal lives in the renderer (`saveAndPrintBill`,
  `holdBill`, `addToExistingOrder`). The main-process handlers accept an
  empty item list.

## Model

| member | source | states |
|---|---|---|
| Catalog.FirstUnknown | main.js:1191-1193 | the position reported is a payload entry with no catalog row, and every entry before it has one |
| Catalog.Accumulate | main.js:1179-1201 | the lookup loop fails exactly when some food id is unknown, reporting the first unknown id; otherwise it yields Σ cost×qty and, per tax column, Σ cost×qty×rate/100 |
| Catalog.AccumulateFromMeetsSums | main.js:1194-1200 | the loop's running sums added to a start value equal that value plus the reference catalog sums |
| Catalog.CostSumAppend | main.js:1195-1196 | the catalog cost of a payload split in two is the sum of the two parts' costs |
| Catalog.Toggled | main.js:2177 | `CASE WHEN flag = 1 THEN 0 ELSE 1 END` yields 0 or 1, and 1 exactly when the flag was not 1 |
| Catalog.ToggleFlag | main.js:2171-2205 | an unknown id changes nothing and answers null; a known id has the chosen flag set to the CASE result (1 becomes 0, anything else 1), keeps name, category, cost, sgst, cgst, tax and the other flag, and answers the new value; other rows are unchanged |
| Catalog.ToggleTwice | main.js:2214 | toggling twice restores a flag that was 1 and leaves any other value at 0 |
| Billing.Find | bill.js:7 | the row found for an id is the first row carrying that id, and none is found only when no row carries it |
| Billing.AddToBill | bill.js:2-66 | a non-positive quantity fails and changes nothing; an existing id gets old + added quantity and total price × new quantity, others unchanged; a new id is appended with total price × quantity; the discount field is untouched and row ids stay distinct |
| Billing.ClampQuantity | bill.js:75 | the stored quantity is the parsed input when at least 1, else 1 (NaN included) |
| Billing.UpdateQuantity | bill.js:68-80 | only the edited row changes, to the clamped quantity and its creation price × that quantity; an absent id changes nothing |
| Billing.RemoveFromBill | bill.js:84-90 | the row of the id is dropped and the others kept in order; an absent id changes nothing |
| Billing.ResetBill | bill.js:93-121 | the bill has no rows, and the discounted-total field holds 0 if it existed and is still absent if it did not |
| Billing.ApplyDiscount | bill.js:125-196 | the field is reset to the re-summed subtotal before validation; negative, ambiguous and over-total discounts fail in that order and every other spec succeeds; success stores max(0, subtotal − percentage or amount), the floored subtotal when both are 0, and shows subtotal − discounted |
| Billing.DiscountBounds | bill.js:161-188 | for a non-negative subtotal the discounted total lies between 0 and the subtotal and the shown discount is non-negative |
| Billing.DiscountSupersedes | bill.js:130-145 | a second discount depends only on the lines, not on the first discount: a new spec supersedes rather than stacks |
| Billing.DiscountIdempotent | bill.js:141-176 | applying the same discount twice gives what applying it once gives |
| Billing.PercentageExample | bill.js:161-164 | 10% off a subtotal of 1000 stores 900 and shows 100 |
| Billing.ExceedsExample | bill.js:156-159 | a fixed 600 off a subtotal of 500 fails with the over-total error |
| Billing.PayloadItems | bill.js:235-242 | the payload has one `{foodId, quantity}` per row, in row order, with the row's quantity |
| Billing.SaveAndPrint | bill.js:227-267 | an empty bill sends nothing; otherwise the stored discounted total is sent when the field exists, else the sum of line totals, and the bill is reset |
| Billing.StaleDiscountIsSent | bill.js:250-252 | after add, edit and remove the earlier discounted total is still what a save sends |
| Billing.ResetSendsZero | bill.js:105-108 | after a reset with the field present, the next save sends a total of 0 |
| Billing.AddQuantityOf | bill.js:8-13 | one add raises the added id's quantity by the added amount when positive and leaves every other id's quantity alone |
| Billing.ReplayMerges | bill.js:420-424 | replaying held lines through `addToBill` leaves each id at its old quantity plus all positive held quantities for it, keeps ids distinct and keeps the field |
| Billing.RepeatedAdds | bill.js:421-423 | repeated positive adds of one item on an empty bill give one row whose quantity is their sum |
| Billing.RawPayload | bill.js:282-287 | the raw payload has one entry per row, in row order, with the quantity read the chosen way |
| Billing.HeldItemsLoseQuantities | bill.js:284 | reading `.textContent`, every held quantity of a non-empty bill is NaN, while the save payload carries the real quantities |
| Billing.HeldItemsAsWritten | bill.js:282-287 | as written, nothing is sent for an empty bill and otherwise one entry per row, in row order, with the row's id and a NaN quantity |
| Billing.HeldQuantityCounterexample | bill.js:608 | a one-row bill of quantity 2 is sent with quantity NaN as written and 2 when `.value` is read |
| Billing.HoldBill | bill.js:271-301 | an empty bill sends nothing; otherwise every row's id and `.value` quantity is sent with the cashier and date, and the bill is reset |
| Billing.AddToExistingOrder | bill.js:601-626 | an empty bill sends nothing; otherwise every row's id and `.value` quantity go to the chosen order, and the bill is reset |
| Menu.Press | ui.js:72-90 | "−" lowers the value by 1 only while it is above 1; "+" raises it by exactly 1 |
| Menu.PickerAtLeastOne | ui.js:76-79 | from the initial 1 the picker never goes below 1, nor above 1 plus the number of "+" clicks |
| Menu.PlusOnly | ui.js:86-88 | with only "+" clicks the picker shows 1 plus their number |
| Menu.AddFromMenu | ui.js:57-65 | ADD always passes `addToBill`'s quantity guard: a new item is appended with the card's id, name, cost and picker value, an existing one grows by the picker value, and the discount field is kept |
| Tables.MaxOf | main.js:1210 | the value chosen belongs to the set and is at least every member |
| Tables.NextKot | main.js:1207-1218 | a date with no order gets KOT 1; otherwise KOT is the highest KOT on that date plus 1, so it exceeds every KOT of the date |
| Tables.InsertRows | main.js:1233-1237 | existing detail rows are kept; new keys are exactly the bill's payload ids, each with its first entry's quantity |
| Tables.UpsertRows | main.js:1380-1386 | a key's quantity becomes its old quantity (0 if absent) plus the payload's total for it; other bills' rows are unchanged |
| Tables.DropBill | main.js:1880 | exactly the other bills' detail rows remain, with their quantities |
| Tables.RowsOf | main.js:1534 | exactly the bill's detail rows are selected, with their quantities |
| Tables.DropHeld | main.js:1149 | no row of the held id remains, and every other row is kept exactly as often as it occurred |
| Tables.DropHeldConcat | main.js:1149 | the delete keeps the surviving rows in table order: deleting from a concatenation deletes from each part |
| Persistence.DiscountFor | main.js:1240-1247 | the discount row stores the calculated total, an amount with initial − amount = final, and percentage × initial = amount × 100 |
| Persistence.SaveBill | main.js:1172-1265 | an unknown item writes nothing and reports the id; otherwise the header gets the next KOT of the date, the final price and catalog taxes, details are inserted, a discount row is written iff calculated > final, and the held tables, catalog, archive and held-id counter are unchanged |
| Persistence.SaveKeepsDiscounts | main.js:1240-1247 | a save adds at most the new bill's DiscountedOrders row; every earlier record stays, unchanged |
| Persistence.TaxIgnoresCallerTotal | main.js:1195-1200 | two saves differing only in the sent total store the same sgst, cgst, tax and KOT |
| Persistence.ZeroTotalFallsBack | main.js:1204 | a sent total of 0 stores the undiscounted catalog sum and writes no discount row |
| Persistence.SaveKeepsValid | main.js:1221-1230 | a save keeps every order number below the next one to be issued |
| Persistence.KotIncrements | main.js:1207-1218 | after a successful save on a date the next KOT of that date is one higher |
| Persistence.SaveReports | main.js:1259 | a successful save reports its KOT and the new bill number |
| Persistence.SaveBillNumbersInTurn | main.js:1207-1230 | every successful save reports the date's next KOT and the next bill number, keeps the store valid and the catalog unchanged, and moves both on by one |
| Persistence.SequentialKots | main.js:1207-1230 | successful saves in a row on one date get consecutive KOTs and consecutive bill numbers |
| Persistence.FirstKotOfDay | main.js:1218 | on a date with no order yet, sequential saves get KOT 1, 2, 3, … |
| Persistence.HeldRows | main.js:1306-1314 | one HeldOrderDetails row per payload entry, in order, with its id and quantity |
| Persistence.HoldBill | main.js:1268-1329 | an unknown item writes nothing; otherwise a held header with the undiscounted catalog totals and no KOT is added with one detail row per item |
| Persistence.DeleteHeldOrder | main.js:1148-1167 | the held header and all its detail rows are removed, every other held order resumes to the same lines and quantities, and nothing else changes |
| Persistence.DropHeldKeepsOthers | main.js:1149 | deleting one held order's rows leaves every other held order's joined details and per-item quantities unchanged |
| Persistence.DropHeldKeepsDetails | main.js:1149 | deleting one held order's rows leaves another held order's joined details unchanged, line for line |
| Persistence.DropHeldKeepsQuantity | main.js:1149 | deleting one held order's rows leaves the quantity another held order holds for any item unchanged |
| Persistence.HeldOrderDetails | main.js:1112-1144 | every held row of that id whose food is in the catalog yields a line with the catalog name and cost and the held quantity, no other line appears, and there are exactly as many lines as such rows |
| Persistence.HeldQuantityOfDetails | main.js:1112-1144 | what the details carry for an item equals the positive held quantities for it in the held table itself |
| Persistence.ResumeMergesAndConsumes | bill.js:420-429 | resuming raises each item's bill quantity by the positive quantities the held table carries for it under that id (catalog items only) and removes the held order and its rows |
| Persistence.ResumeIsSingleUse | main.js:1148-1167 | a second resume of the same id adds nothing and changes nothing |
| Persistence.DropHeldNoop | main.js:1149 | deleting the rows of a held id none of the rows carry keeps the rows as they are |
| Amendments.Bump | main.js:1390-1398 | each money column grows by its delta and the other header fields are kept |
| Amendments.MergeIntoOrder | main.js:1358-1407 | an unknown item fails after the earlier entries' upserts, with totals untouched; otherwise all entries are upserted and an existing order's totals grow by the new items' catalog totals |
| Amendments.MergeTwiceDoubles | main.js:1380-1398 | merging the same payload twice adds its totals and its quantities twice |
| Amendments.MergeNotIdempotent | main.js:1390-1398 | merging a payload of non-zero cost twice differs from merging it once |
| Amendments.EditCostIsCostSum | main.js:1911 | with every id known, the edit's price sum is the catalog cost sum |
| Amendments.EditLevyIsLevySum | main.js:1198-1200 | with every id known, the corrected tax sums equal the save-bill tax sums |
| Amendments.EditTotals | main.js:1909-1928 | with every id known, the corrected edit's totals are the catalog totals of the new set |
| Amendments.SetTotals | main.js:1931-1934 | the four money columns are replaced and KOT, cashier and date kept |
| Amendments.ReplaceOrder | main.js:1878-1956 | the bill's details become exactly the new set; a repeated item fails with the header untouched; otherwise an existing header gets the recomputed totals; other tables unchanged |
| Amendments.ReplaceIdempotent | main.js:1880-1936 | replacing twice with the same set and totals equals replacing once |
| Amendments.UpdateOrderAsWritten | main.js:1909-1936 | as written, the edit stores price Σ cost×qty, sgst Σ sgst×qty, cgst Σ cgst×qty and tax = sgst + cgst |
| Amendments.EditAndSaveTaxDiffer | main.js:1912-1928 | one item of cost 50 at 2.5% + 2.5%, quantity 2, is saved with sgst 2.5 and tax 5 but edited to sgst 5 and tax 10 |
| Amendments.UpdateAsWrittenIdempotent | main.js:1880-1936 | as written, editing twice with the same items leaves exactly what editing once leaves, totals included |
| Amendments.UpdateOrder | main.js:1878-1956 | the corrected edit fails only on a repeated item and otherwise gives an existing order exactly the catalog totals of the new set |
| Amendments.UpdateIdempotent | main.js:1880-1936 | editing twice with the same items leaves exactly what editing once leaves |
| Amendments.EditRestoresSavedTaxes | main.js:1909-1936 | editing a just-saved order with its own items restores the saved sgst, cgst, tax and KOT, sets the price to the catalog sum and keeps the discount row |
| Amendments.ConfirmDeleteOrder | main.js:1511-1569 | an unknown bill is reported and nothing changes; otherwise the header is archived with the reason, the archived details gain exactly the bill's rows, header and rows are removed, and discounts and id counters are kept |
| Amendments.DeleteIsSingleUse | main.js:1533-1538 | a second delete of the same bill reports it missing and changes nothing |
| Receipt.PadStart | main.js:982 | a shorter string is left-filled with spaces to the width; a longer one is kept whole |
| Receipt.PadEnd | main.js:982 | a shorter string is right-filled with spaces to the width; a longer one is kept whole |
| Receipt.Take | main.js:982 | `substring(0, n)` is the prefix of length min(n, length) |
| Receipt.NatToString | main.js:982 | a number renders as at least one decimal digit with no leading zero |
| Receipt.ParseNatToString | main.js:982 | reading the decimal rendering back gives the number |
| Receipt.Fixed2 | main.js:982 | `toFixed(2)` renders digits with a point three places from the end |
| Receipt.Fixed2RoundTrip | main.js:982 | reading the two-decimal rendering back gives the amount in paise |
| Receipt.ReceiptColumns | main.js:980-988 | for quantities below 1000 and prices below 100000 rupees the line is 25 characters, its first 17 are the kitchen line, and the name, quantity and price columns read back as printed |
| Receipt.ReceiptLineNoNewline | main.js:982 | a receipt line contains a newline only if the item name does |
| Receipt.SplitJoin | main.js:983 | the item block split at newlines gives back one formatted line per item |
| Settings.Login | main.js:79-84 | "1212" gives admin, "1000" gives staff, anything else null, and the stored role is what is returned |
| Settings.LastLoginDecides | main.js:79-86 | the reported role depends on the last attempt only; a wrong password ends an earlier session |
| Settings.ParseHex | main.js:120-121 | `parseInt(s, 16)` is NaN exactly when no hexadecimal digit follows the optional `0x` prefix |
| Settings.Hex4RoundTrip | main.js:113-121 | every 16-bit value written as `0x` and four hexadecimal digits passes the format check and `parseInt(…, 16)` reads back that value |
| Settings.HexIdParses | main.js:113-121 | every id the format check accepts parses to a value below 65536 |
| Settings.SavePrinterConfig | main.js:104-129 | missing ids fail first, malformed ids next; the configuration is stored exactly when both ids match `^0x[0-9a-fA-F]{4}$`, and a failure leaves the stored one in place |
| Settings.HexValuesCheckUnreachable | main.js:122-124 | the "invalid hexadecimal values" error can never be returned |
| Settings.GetPrinterConfig | main.js:89-102 | the saved ids, or the defaults when none were saved, with their `parseInt(…, 16)` values |
| Settings.SaveKeepsValid | main.js:126 | a store holding only well-formed ids still does after any save attempt |
| Settings.ViewOfValid | main.js:96-101 | from well-formed or default settings both decimal ids are 16-bit numbers, never NaN |
| Settings.DefaultIds | main.js:90-93 | the default ids pass the format check and decode to 1317 and 42752 |
| Analytics.Dates | main.js:541-545 | a date is listed iff some row has it, and no date twice |
| Analytics.MaxQty | main.js:525-536 | the largest quantity of a date is carried by one of its rows and bounds all of them; none only when the date has no row |
| Analytics.FirstAt | main.js:525-536 | the position found is the first row of the date carrying the quantity |
| Analytics.CategoryTally | main.js:525-536 | the reducer's map has an entry for exactly the dates in its first-appearance key list |
| Analytics.TopSellingCategories | main.js:541-545 | one array element per key of the reduced map |
| Analytics.TopCategoryIsFirstMax | main.js:525-545 | one entry per date in first-appearance order, with the date's largest quantity and the name on the first row reaching it |
| Analytics.ItemsTally | main.js:1432-1442 | the reducer's map has an entry for exactly the dates in its first-appearance key list |
| Analytics.TopSellingItems | main.js:1444-1447 | one array element per key of the reduced map |
| Analytics.TopItemsAreAllMaxima | main.js:1432-1447 | one entry per date in first-appearance order, naming every row reaching the date's largest quantity, in row order, joined by ", " |
| Analytics.TieExample | main.js:1434-1438 | two items tied on a date are both named by the items reducer, while the category reducer keeps only the first |
| Analytics.HighestRevenueCategories | main.js:416-417 | no rows give an empty list |
| Analytics.NamesWithRevenueMembers | main.js:417 | a name is listed iff some row with that name has the chosen revenue |
| Analytics.HighestRevenueIsMaximum | main.js:416-417 | on rows sorted by revenue, the list is exactly the categories with the highest revenue, non-empty when there are rows |
| Analytics.LatestBy | main.js:741-750 | a key is in the built map iff some pair carries it, and its value is that of the last such pair |
| Analytics.SevenDaySales | main.js:752-763 | one entry per range date in range order, each metric from the last row for that date, or 0 when the date has none |
| CategoryTable.FetchCategoryWise | categoryWiseTable.js:95-118 | a missing date and then a missing category give their popups with the session unchanged; otherwise the three filters are stored and exactly those values sent |
| CategoryTable.Refresh | categoryWiseTable.js:200-210 | the stored filters are re-sent exactly when all three are non-empty |
| CategoryTable.RefreshRepeatsLastRequest | categoryWiseTable.js:112-117 | after a request, a refresh re-sends the same request; after a popup it sends what it sent before |
| CategoryTable.Flip | categoryWiseTable.js:214 | the direction always changes |
| CategoryTable.SortCategoryWiseTable | categoryWiseTable.js:212-214 | the clicked column becomes current and the direction flips, even when the column changed |
| CategoryTable.ToggleTwice | categoryWiseTable.js:214 | two clicks restore the direction; the first click after loading sorts descending |
| CategoryTable.SortIndicator | categoryWiseTable.js:242-247 | ▲ or ▼ for the current column by direction, "" for every other column |
| CategoryTable.OneIndicator | categoryWiseTable.js:242-247 | after a click only the clicked column shows an indicator |
| CategoryTable.SortData | categoryWiseTable.js:232-240 | a falsy key on either side compares equal; two strings compare by collation, swapped when descending; two numbers by difference, negated when descending; a string against a number compares the number's text ascending and throws descending; a number against text is NaN when the text is not a number |
| CategoryTable.DescendingStringAgainstNumberThrows | categoryWiseTable.js:236 | sorting "abc" against 5 descending throws, while ascending it compares |
| CategoryTable.NumericDescNegatesAsc | categoryWiseTable.js:238 | on numeric keys the descending result is the negated ascending one, as is swapping the rows |
| CategoryTable.StringDescSwapsAsc | categoryWiseTable.js:236 | on string keys descending equals ascending with the rows swapped |
| CategoryTable.MixedCellsCompareEqual | categoryWiseTable.js:238 | a number against non-numeric text gives NaN, which the sort reads as equal |

## Left out

- SQLite, IPC and Electron plumbing. Tables are maps and sequences, and handlers are sequential store transitions. Database errors (the `reject(err)` paths) are not modelled.
- Async interleavings. These include the KOT read-then-insert race and the un-awaited `db.run` calls in merge and edit. In the model each handler runs to completion on its own.
- JavaScript floating point and formatting. `toFixed(2)` rounding of stored money, `Intl.NumberFormat` displays and `parseFloat` of display text are left out. Money is exact `real`, and receipt prices are exact paise.
- Persistence.DiscountFor: the stored percentage is exact, not `toFixed(2)` of a quotient of rounded strings.
- Clocks. `new Date()` dates, `toLocaleString` in receipts and the date helpers of the category table are left out. Dates are plain string parameters.
- ESC/POS USB printing, the control-byte receipt template and the header and footer text. Only the item columns are modelled.
- Receipt.ReceiptColumns: quantities and prices are non-negative whole numbers. Negative quantities, and prices with more than two decimals, are not rendered.
- Generated row ids are counters in the store (`nextBill`, `nextHeld`) that are never reused.
- OrderDetails is assumed to have a unique `(orderid, foodid)` key, which the `ON CONFLICT(orderid, foodid)` clause implies. A plain insert that hits an existing key is modelled as failing and keeping the row.
- Amendments.UpdateOrderAsWritten: an edit whose join finds no rows stores 0 where SQLite's `SUM` yields NULL.
- Amendments.ConfirmDeleteOrder: the archived detail rows are a map keyed like OrderDetails. A bill number deleted twice over its lifetime would overwrite, which unique generated ids rule out.
- `displayTodaysOrders` (bill.js:488-512) only builds a payload to test for emptiness before asking for today's orders. Its `.textContent` quantities are never sent, so it is not modelled.
- The menu CRUD, category, customer and user handlers, the business-info file and the analytics SQL queries. The reducers take the query rows as given.
- Settings.ParseHex: leading whitespace and signs, which `parseInt` also accepts, are not modelled. The format check rules them out before parsing.
- Settings.SavePrinterConfig: the id fields are strings or missing. Non-string JavaScript values are not modelled.
- CategoryTable.SortData: `localeCompare` and the engine's number/string conversions are parameters. NaN cells are not modelled. Since the sort itself is not modelled, a thrown TypeError is only a comparator result; the direction flip of `CategoryTable.SortCategoryWiseTable` happens before the sort and stays.
- Receipt.PadStart, Receipt.PadEnd, Receipt.Take: widths count Unicode scalar values, while JavaScript's `padStart`, `padEnd` and `substring` count UTF-16 code units. Names outside the Basic Multilingual Plane, such as emoji, are padded and cut differently, and `substring(0, 14)` can split a surrogate pair; Dafny strings have no UTF-16 view.
- The array sort itself (`Array.prototype.sort` in `sortCategoryWiseTable`) is the engine's algorithm and is not modelled. Only its comparator and direction state are.

## Findings

| source | as written | input that shows it | evidently intended | confidence | as-written member | corrected member |
|---|---|---|---|---|---|---|
| bill.js:284 | `holdBill` and `addToExistingOrder` (bill.js:608) read `.textContent` of the quantity `<input>`, which is always empty, so `parseInt` gives NaN | a bill with one row of quantity 2 is held or merged with quantity NaN | read `.value`, as `saveAndPrintBill` does (bill.js:237) | high, not executed | Billing.HeldItemsAsWritten | Billing.HoldBill |
| main.js:1912-1928 | `update-order` stores sgst = Σ sgst rate × quantity, cgst likewise and tax = sgst + cgst | one item of cost 50 at 2.5% + 2.5% (tax 5%), quantity 2: saved with sgst 2.5 and tax 5, edited to sgst 5 and tax 10 | recompute Σ cost × quantity × rate / 100 per column, as `save-bill` does, so an edit with the same items restores the saved taxes | medium, not executed | Amendments.UpdateOrderAsWritten | Amendments.UpdateOrder |

# Bookkeeping core of a small-business inventory, sales and debts app

This project models the parts of a browser-based shop ledger that compute or change its records:

- **Debts**: the debts page keeps customers and suppliers, called debtors, and a log of debt and payment transactions.
  - A debtor's balance is recomputed from the log.
  - A debtor can be added under a unique non-empty name.
  - The receivables and payables totals are sums over the balances.
  - The list can be searched.
- **Inventory**: the inventory page adds, edits, deletes and searches products. A barcode must be unique.
- **Sales**: the sales page builds a draft invoice line by line and checks each line against stock. It can remove a line. Finalizing the draft does three things:
  - it records the invoice at the front of the history;
  - it decrements stock;
  - it clears the draft.
- **Reports**: the reports page works on untyped stored data.
  - It validates debtors and recomputes their balances, counting a non-numeric amount as 0.
  - It keeps only the sales and transactions inside the selected period.
  - It computes the totals, the average invoice value and the net debt position.
  - It builds the sales per day and the five best-selling products by value.
- **Sidebar and storage**: the sidebar loads values from the browser's key-value store and falls back to a default. A key whose text does not parse is removed. The sidebar also:
  - saves the trimmed business details;
  - backs up the six application keys;
  - restores a backup file, writing only the whitelisted keys and counting them.
- **Middleware**: it decides whether a request is redirected.

The model follows the source's own forms:

- Pages whose handlers change state are classes: `Debts.DebtsPage`, `Inventory.InventoryPage`, `Sales.SalesPage` and `Storage.LocalStorage`. Each handler is a method with a `modifies` clause.
- The state-changing handlers are specified by pure functions such as `Sales.AddToDraft` and `Sales.RemoveFromDraft`. The proved lemmas are about those functions.
- The forEach loops of the reports page and the sidebar are methods with loop invariants.
- The middleware, the report figures and the balance computation are functions.

The following become parameters of the operations:

- ids (`Date.now()` strings);
- the current time;
- the day formatting of a timestamp;
- the bounds of the selected month;
- JSON parsing and stringifying.

Quantities and amounts are mathematical reals. The defensive `typeof … === 'number'` checks of the reports page are modelled by the `Wrappers.Dyn` datatype: a stored field is either `Typed(value)` or `Untyped`.

## Model

| member | source | states |
|---|---|---|
| Text.Trim | src/app/inventory/page.tsx:128-129 | `String.prototype.trim`: the result is the slice of the input left after removing white space at both ends, with only white space before and after it; it neither starts nor ends with white space; it is empty exactly when the input is all white space |
| Text.TrimIdempotent | src/components/app-sidebar.tsx:103-104 | trimming twice is trimming once, so re-saving a trimmed business name stores the same text |
| Text.Lower | src/app/debts/page.tsx:142-147 | lower-casing keeps the length and maps every character |
| Text.LowerIdempotent | src/app/inventory/page.tsx:91-97 | a lower-cased search term lower-cases to itself |
| Seqs.Filter | src/app/debts/page.tsx:155 | `Array.prototype.filter`: the result is no longer than the input, holds exactly the input's elements that satisfy the test, and only those |
| Seqs.FilterConcat | src/app/reports/page.tsx:189 | filtering keeps the original order: it distributes over concatenation |
| Seqs.SumOfPermutation | src/app/debts/page.tsx:157-165 | a `reduce` that sums is independent of the order of its elements |
| Debts.BalanceAppend | src/app/debts/page.tsx:154-166 | `calculateBalance`: a customer's debt raises the balance and a payment lowers it; a supplier's debt lowers it and a payment raises it; another debtor's transaction leaves it unchanged |
| Debts.BalanceWithoutTransactions | src/app/debts/page.tsx:154-157 | a debtor without transactions has balance 0 |
| Debts.BalanceAsMaskedSum | src/app/debts/page.tsx:155-165 | filtering by debtor and then reducing equals one sum over the whole log in which other debtors' entries count 0 |
| Debts.BalancePermutation | src/app/debts/page.tsx:154-166 | a balance does not depend on the order of the log |
| Debts.SupplierMirrorsCustomer | src/app/debts/page.tsx:158-164 | the supplier balance of a log is the negated customer balance of the same log |
| Debts.WithBalances | src/app/debts/page.tsx:81-84 | recomputing balances keeps each debtor's id, name, role and phone and sets the balance to the one computed from the log |
| Debts.WithBalancesIdempotent | src/app/debts/page.tsx:129-132 | recomputing again after a recomputation changes nothing |
| Debts.TotalReceivables | src/app/debts/page.tsx:255-260 | the sum of the positive customer balances, never negative |
| Debts.TotalPayables | src/app/debts/page.tsx:262-268 | the sum of the magnitudes of the negative supplier balances, never negative |
| Debts.TotalsAppend | src/app/debts/page.tsx:255-268 | one more debtor adds its balance to receivables only when it is a customer owing money, and its magnitude to payables only when it is a supplier owed money |
| Debts.SearchDebtors | src/app/debts/page.tsx:142-148 | the filtered list holds exactly the debtors whose lower-cased name includes the lower-cased term or whose phone includes it |
| Debts.SearchEmptyTermKeepsAll | src/app/debts/page.tsx:142-148 | an empty search term keeps every debtor |
| Debts.DebtsPage.constructor | src/app/debts/page.tsx:55-92 | the loaded debtors have their balances recomputed from the loaded log |
| Debts.NewDebtor | src/app/debts/page.tsx:185-191 | the new debtor has the generated id, the trimmed name, the chosen type and balance 0; its phone is the trimmed phone, or none exactly when the phone is blank |
| Debts.AddToDebtors | src/app/debts/page.tsx:169-194 | an all-blank name is refused; a trimmed name already present ignoring case is refused; otherwise the new debtor is appended; a refusal leaves the list unchanged |
| Debts.AddDebtorKeepsNamesDistinct | src/app/debts/page.tsx:180-191 | adding keeps the names distinct ignoring case |
| Debts.AddDebtorKeepsTotals | src/app/debts/page.tsx:185-191 | adding a debtor changes neither the receivables nor the payables total |
| Debts.DebtsPage.AddDebtor | src/app/debts/page.tsx:169-194 | the outcome and the new list are those of `AddToDebtors`; the transaction log is unchanged |
| Reports.NonNumericAmountCountsZero | src/app/reports/page.tsx:102-113 | a transaction whose amount is not a number leaves every balance as it was |
| Reports.MaskedSumsAgree | src/app/reports/page.tsx:99-113 | the reports page's masked balance sum agrees term by term with the debts page's over the stored log |
| Reports.BalanceMatchesLedger | src/app/reports/page.tsx:99-113 | on a log whose amounts are all numbers, the coerced balance equals the debts page's balance |
| Reports.ValidateDebtors | src/app/reports/page.tsx:144-152 | never more debtors than loaded, and every kept debtor's balance is the one computed from the loaded log |
| Reports.ValidatedAreRecomputed | src/app/reports/page.tsx:144-152 | the `map` to `null` and `filter` equal keeping, in order, exactly the debtors with a string id and a known type and recomputing each |
| Reports.LoadReport | src/app/reports/page.tsx:128-168 | if any of the four stored lists is not an array every list is emptied and the error is raised; otherwise the lists are kept and the debtors validated |
| Reports.FilterSales | src/app/reports/page.tsx:172-205 | keeps exactly the sales with a valid date that lies inside the period (every dated sale for all time) |
| Reports.FilterTransactions | src/app/reports/page.tsx:207-240 | keeps exactly the transactions with a valid date that lies inside the period |
| Reports.AllTimeKeepsDatedSales | src/app/reports/page.tsx:184-199 | for all time, a list of dated sales is kept whole and in order |
| Reports.PeriodTotalsAdd | src/app/reports/page.tsx:245 | the period's sales value of two lists is the sum of their period values |
| Reports.UntypedItemsAddNothing | src/app/reports/page.tsx:246-249 | an invoice whose items are not an array adds nothing to the sold-items count |
| Reports.AverageInvoiceValue | src/app/reports/page.tsx:250 | 0 without invoices; otherwise times the number of invoices it gives the total value |
| Reports.AverageWithinTotals | src/app/reports/page.tsx:245-250 | the average lies between the smallest and the largest invoice total |
| Reports.TotalInventoryValueNonNegative | src/app/reports/page.tsx:252-256 | with non-negative numeric quantities and prices the inventory value is non-negative |
| Reports.InventoryItemsAppend | src/app/reports/page.tsx:257 | one more product adds its quantity to the item count when it is a number, and nothing otherwise |
| Reports.TotalInventoryItemsNonNegative | src/app/reports/page.tsx:257 | with non-negative numeric quantities the item count is non-negative |
| Reports.UntypedProductAddsNothing | src/app/reports/page.tsx:252-256 | a product whose quantity or price is not a number adds nothing to the inventory value |
| Reports.NetPositionPerDebtor | src/app/reports/page.tsx:259-261 | the net position equals the sum, debtor by debtor, of the owed customer balances and the negative supplier balances |
| ReportCharts.Tallied | src/app/reports/page.tsx:286-306 | the ids in the tally's order are exactly the ids with an entry |
| ReportCharts.TalliedIsTally | src/app/reports/page.tsx:284-306 | after the loop every valid item's id has one entry whose quantity and value are the sums over that id's valid items, the ids listed without repetition, and no other id has one |
| ReportCharts.TalliedInFirstSeenOrder | src/app/reports/page.tsx:287-306 | the `Map`'s keys come in first-seen order: each listed id has a counted item, an id listed earlier was first counted at an earlier item, and no unlisted id has a counted item |
| ReportCharts.InsertSorted | src/app/reports/page.tsx:308 | inserting into a list sorted by descending value keeps it sorted |
| ReportCharts.InsertMultiset | src/app/reports/page.tsx:308 | inserting adds exactly one copy of the entry and loses none |
| ReportCharts.SortByValue | src/app/reports/page.tsx:308 | the sort is a permutation ordered by descending value |
| ReportCharts.TopFive | src/app/reports/page.tsx:307-309 | five entries, or all when fewer, sorted by descending value, a sub-multiset of the tally (no entry repeated beyond its occurrences), and none of the left-out entries worth more than a kept one |
| ReportCharts.TopFiveEntries | src/app/reports/page.tsx:287-309 | every listed entry is the entry of one product id, holding that product's summed quantity and summed value |
| ReportCharts.TopSellingProducts | src/app/reports/page.tsx:284-310 | the nested loops compute `TopFive` of the tally of all items: at most five entries, largest value first |
| ReportCharts.AddSaleKeepsTotals | src/app/reports/page.tsx:267-276 | one loop step keeps the map equal to the per-day sums of the sales seen so far |
| ReportCharts.SalesByDay | src/app/reports/page.tsx:264-282 | a day has an entry exactly when some valid sale falls on it, and the entry is the sum of the totals of that day's sales |
| Inventory.NewProduct | src/app/inventory/page.tsx:126-132 | the new product stores the trimmed barcode and name and the numeric quantity and price, both non-negative |
| Inventory.Edited | src/app/inventory/page.tsx:165-171 | the edited list keeps its length and every id; the product with the edited id takes the trimmed form values and every other product is unchanged |
| Inventory.EditedKeepsBarcodesDistinct | src/app/inventory/page.tsx:155-171 | an edit whose trimmed barcode no other product holds keeps barcodes distinct |
| Inventory.FilterKeepsBarcodesDistinct | src/app/inventory/page.tsx:182 | filtering products keeps barcodes distinct |
| Inventory.FilterKeepsIdsDistinct | src/app/inventory/page.tsx:182 | filtering products keeps ids distinct |
| Inventory.DeleteRemovesExactly | src/app/inventory/page.tsx:181-189 | deleting keeps exactly the products with another id |
| Inventory.SearchProducts | src/app/inventory/page.tsx:90-99 | the filtered list holds exactly the products whose lower-cased name includes the lower-cased term or whose barcode includes it |
| Inventory.SearchEmptyTermKeepsAll | src/app/inventory/page.tsx:90-99 | an empty search term keeps every product |
| Inventory.RawBarcodeCheckAdmitsDuplicate | src/app/inventory/page.tsx:116-132 | a barcode with a leading space passes the duplicate check beside the same barcode and then breaks barcode uniqueness |
| Inventory.TakenTrimmedBarcodeDuplicates | src/app/inventory/page.tsx:115-131 | appending a product whose trimmed barcode is already stored breaks barcode uniqueness |
| Inventory.RawNameCheckAdmitsBlankName | src/app/inventory/page.tsx:106-132 | a name of spaces passes the empty-field check and is stored empty |
| Inventory.TrimmedAddKeepsBarcodesDistinct | src/app/inventory/page.tsx:104-141 | checking the trimmed values accepts only forms the raw check accepts, stores a non-empty barcode and name, and keeps barcodes distinct |
| Inventory.InventoryPage.constructor | src/app/inventory/page.tsx:65-80 | the page starts with the loaded products |
| Inventory.InventoryPage.AddProduct | src/app/inventory/page.tsx:104-141 | an incomplete or negative form is rejected; a raw barcode already present is rejected; otherwise the new product is appended; rejection changes nothing |
| Inventory.InventoryPage.AddProductTrimmed | src/app/inventory/page.tsx:104-141 | the same handler with the checks on the trimmed values, which keeps barcodes distinct |
| Inventory.InventoryPage.EditProduct | src/app/inventory/page.tsx:143-179 | with no product open or an invalid form nothing changes; a trimmed barcode held by another product is rejected; otherwise the list becomes `Edited`, keeping distinct barcodes when ids are distinct |
| Inventory.InventoryPage.DeleteProduct | src/app/inventory/page.tsx:181-189 | the list keeps, in order, exactly the products with another id, and distinct barcodes stay distinct |
| Sales.FindProduct | src/app/sales/page.tsx:117-122 | `find`: the first product with the id, or none when no product has it |
| Sales.TotalNonNegative | src/app/sales/page.tsx:186-189 | `calculateTotal` of a valid draft is non-negative |
| Sales.AddToDraft | src/app/sales/page.tsx:107-173 | missing or non-positive quantity or negative price is rejected; an unknown product is rejected; a quantity above stock is rejected; a line with the same product and price is merged unless the merged quantity exceeds stock; otherwise a line with the entered price is appended; a rejection leaves the draft unchanged |
| Sales.AddRaisesTotal | src/app/sales/page.tsx:136-165 | a merge or an append raises the invoice total by quantity times price |
| Sales.AddKeepsValid | src/app/sales/page.tsx:107-173 | every line of the draft stays backed by stock and the (product, price) lines stay distinct |
| Sales.RemoveFromDraft | src/app/sales/page.tsx:175-184 | `findIndex` and `splice`: with no line of that product and price the draft is unchanged; otherwise it is one line shorter |
| Sales.RemoveDropsFirstMatch | src/app/sales/page.tsx:175-184 | the line removed is the first one with that product and price; the lines before and after it keep their order; the total drops by that line's amount |
| Sales.RemoveLeavesNone | src/app/sales/page.tsx:175-184 | in a draft whose (product, price) lines are distinct, no line with that product and price is left |
| Sales.RemoveKeepsDraftValid | src/app/sales/page.tsx:175-184 | removing keeps the draft valid |
| Sales.Decremented | src/app/sales/page.tsx:207-219 | the product keeps every field except its quantity, which drops by the sold amount, floored at 0 |
| Sales.AfterSale | src/app/sales/page.tsx:207-219 | the inventory keeps its length and order, and each product is decremented by its sold quantity |
| Sales.SoldPositiveIffOnInvoice | src/app/sales/page.tsx:207-219 | in a valid draft a product's sold quantity is positive exactly when it is on the invoice |
| Sales.AfterSaleStock | src/app/sales/page.tsx:207-219 | after a sale every stock is non-negative, and products not on the invoice keep their quantity |
| Sales.StockBoundIsPerLine | src/app/sales/page.tsx:127-155 | two lines of one product at two prices can together exceed stock, and the finalised stock is then floored at 0 |
| Sales.SalesPage.constructor | src/app/sales/page.tsx:84-89 | the page starts with the loaded inventory and history and an empty, valid draft |
| Sales.SalesPage.AddProductToInvoice | src/app/sales/page.tsx:107-173 | the outcome and the new draft are those of `AddToDraft`; inventory and history are unchanged |
| Sales.SalesPage.RemoveProductFromInvoice | src/app/sales/page.tsx:175-184 | the new draft is `RemoveFromDraft` of the old; nothing else changes |
| Sales.SalesPage.FinalizeInvoice | src/app/sales/page.tsx:191-246 | an empty draft is refused and nothing changes; otherwise the invoice holds the new id, the time, the lines and their total; it is put first in the history; the inventory is decremented; the draft is cleared |
| Storage.LocalStorageKeysDistinct | src/components/app-sidebar.tsx:74-81 | the six backed-up keys are distinct |
| Storage.LoadValue | src/components/app-sidebar.tsx:44-61 | a missing key or the text `undefined` gives the default; parseable text gives its value; unparseable text gives the default |
| Storage.LoadFromLocalStorage | src/components/app-sidebar.tsx:44-61 | returns `LoadValue`; unparseable text removes that key and only that key; otherwise the store is unchanged |
| Storage.SaveToLocalStorage | src/components/app-sidebar.tsx:64-72 | the key holds the stringified data and every other key is unchanged |
| Storage.SaveBusinessDetails | src/components/app-sidebar.tsx:102-106 | the two keys hold the stringified trimmed values and every other key is unchanged |
| Storage.BackupOf | src/components/app-sidebar.tsx:121-131 | one entry per whitelisted key, in order: `null` for a missing or empty key, the parsed value for parseable text, the raw text otherwise |
| Storage.BackupData | src/components/app-sidebar.tsx:121-131 | the loop builds `BackupOf` and leaves the store unchanged |
| Storage.CountWhitelisted | src/components/app-sidebar.tsx:169-178 | the number of entries whose key is whitelisted, at most the number of entries |
| Storage.RestoreLeavesOtherKeys | src/components/app-sidebar.tsx:169-178 | a restore never touches a key outside the whitelist |
| Storage.NothingWhitelistedChangesNothing | src/components/app-sidebar.tsx:169-182 | a file without whitelisted keys leaves the store as it was |
| Storage.RestoreWritesEntry | src/components/app-sidebar.tsx:169-178 | with distinct keys, every whitelisted entry's key ends up holding its stringified value |
| Storage.RestoreOfBackup | src/components/app-sidebar.tsx:121-178 | restoring a backup counts six keys and writes each whitelisted key's backed-up value |
| Storage.AllWhitelistedCount | src/components/app-sidebar.tsx:169-178 | when every key is whitelisted the count is the number of entries |
| Storage.RestoreData | src/components/app-sidebar.tsx:152-207 | no file, invalid JSON, or a non-object is refused and nothing changes; otherwise every whitelisted key is written and counted, other keys untouched; a count of 0 is refused |
| Storage.MissingKeyComesBackAsNull | src/components/app-sidebar.tsx:127-173 | a key missing at backup time is restored as the text `null`, and loading it then yields `null` rather than the default |
| Storage.RestoreRemovingNullKeepsLoads | src/components/app-sidebar.tsx:121-178 | if a `null` entry removes its key on restore, a backup followed by a restore leaves the loaded value of a whitelisted key as it was, when the key was absent, empty, or held parseable text of a non-null value |
| Middleware.Decide | src/middleware.ts:8-33 | a request for `/login` or `/signup` carrying the session cookie is redirected to `/`; every other request proceeds |
| Middleware.NoCookieAlwaysProceeds | src/middleware.ts:15-32 | with the login check commented out, a request without the cookie always proceeds |
| Middleware.ProtectedPathsIgnoreCookie | src/middleware.ts:26-32 | outside the public paths the cookie changes nothing |
| Middleware.PublicPathMatchIsExact | src/middleware.ts:6-29 | path matching is exact: `/login/` and `/Login` are not public paths |

## Left out

- The following browser facilities are not modelled:
  - rendering, dialogs and toasts;
  - React effects and their re-run order;
  - `useMemo` caching;
  - file download and upload (`Blob`, `FileReader`);
  - printing and sharing;
  - `window.location.reload`.
- Every page's load-and-save effect is reduced to the values read or written. A storage quota error inside `setItem` is not modelled.
- The `typeof window === 'undefined'` server-side guards are not modelled. The model always runs in the browser.
- Firebase authentication, the auth context, the login and signup pages, and the middleware's `matcher` configuration are not part of this model.
- Date handling becomes parameters:
  - `format(date, 'yyyy-MM-dd')` is the parameter `dayOf`;
  - the selected month's start and end timestamps are the parameters of `Reports.Window`;
  - `new Date(...)` validity is `Option<int>`.
- Numbers are mathematical reals. IEEE-754 rounding and `NaN` are not modelled.
- `toLowerCase` is modelled for ASCII letters only. JavaScript maps all of Unicode, including the Arabic text this app stores, which has no case.
- JSON is a type parameter `J` with `parse` and `stringify` functions. The file a restore reads is modelled as its parsed key-value entries. Extra fields of stored records are not modelled.
- ReportCharts.SalesByDay: the date sort of the chart rows is left out. The map is the result.
- Storage.RestoreRemovingNullKeepsLoads: three cases are excluded, because the corrected restore still changes their loads. A key holding text that does not parse, such as `abc`, is backed up as a string and restored as its JSON text, so it then loads as that string instead of the default. A key holding `undefined` is the same case. A key holding the text `null` is removed by the corrected restore, so it then loads the default instead of `null`.
- Reports.LoadReport: a `null` element inside the stored arrays cannot be represented. In the source, a `null` transaction makes `calculateBalance` throw at src/app/reports/page.tsx:100 whenever a valid debtor exists, and the catch at lines 158-165 then empties every list. The model keeps the lists.
- Reports.TotalSoldItems: a `null` invoice line cannot be represented. In the source it makes `item.saleQuantity` throw at src/app/reports/page.tsx:248. The model's untyped fields make such a line count 0, as `topSellingProductsData` does with its `!item` guard.
- Reports.TotalInventoryValue: a `null` product cannot be represented. In the source it makes `product.quantity` throw at src/app/reports/page.tsx:253.
- ReportCharts.TopFive: the order of entries with equal value is not stated to match the stable order of `Array.prototype.sort`.
- ReportCharts.SalesByDay: each loop step is written as one call of the function `AddSale`, rather than two statements updating the map.
- Sales.SalesPage.constructor: the newest-first sort of the loaded invoice history is not modelled.
- The source merges a line by mutating the old line object in place. The model replaces the line by value, so any aliasing of that object is not captured.
- The resets of form fields after each handler are not modelled.
- The reports page's `inventoryValueByCategoryData` and `debtOverviewData` and the debtor detail page are not part of this model.
- Finding 2 changes no code path of the sidebar. The corrected restore is stated as a lemma with `NullRemoves` as the encoder.

## Findings

| source | as written | input that shows it | evidently intended | confidence | as-written member | corrected member |
|---|---|---|---|---|---|---|
| src/app/inventory/page.tsx:116-129 | The duplicate check compares the raw barcode input with the stored barcodes. The new product stores the trimmed barcode. | Products hold barcode `A`. Adding barcode ` A` passes the check and stores a second `A`. | Check the trimmed barcode, as the edit handler does at line 155, so that barcodes stay unique. | high; not executed | Inventory.RawBarcodeCheckAdmitsDuplicate | Inventory.TrimmedAddKeepsBarcodesDistinct |
| src/components/app-sidebar.tsx:127,173 | Backup writes `null` for a missing key. Restore writes `JSON.stringify(null)`, the text `null`, back under that key. | `salesInvoices` is absent. After a backup and a restore, loading it yields `null` instead of `[]`, and the sales page's `.sort` at src/app/sales/page.tsx:87 then fails. | A restored `null` should leave the key absent, so that loads fall back to their defaults as before. | medium; not executed | Storage.MissingKeyComesBackAsNull | Storage.RestoreRemovingNullKeepsLoads |

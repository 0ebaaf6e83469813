# Sheet inventory ledger — a Dafny model

The system keeps stock of two SKUs of sheet goods, "4x5" and "4x8", at several
locations. A backend exposes a snapshot of every location and three ledger
mutations:

- `addTruck` adds a full truck of one SKU, or a 50/50 split truck.
- `addCustom` adds custom quantities.
- `sell` removes a quantity.

Each mutation updates an inventory row and appends a record to the
transactions table. An older `POST /actions` handler writes the same two tables
with its own delta table. A React client holds the rest of the model:

- it builds the action requests and submits them through the quick-action
  dialogs;
- it groups and filters the transaction history;
- it sums the snapshot into four KPI cards.

The model has ten modules:

- `Common`: optional values, JavaScript truthiness, `parseInt`, sums, the date
  string operations.
- `Sorting`: stable sort by an integer key.
- `Ledger`: the mutation engine, as a `Store` class whose methods update
  the inventory map and the transaction log.
- `LegacyActions`: the older handler.
- `Snapshot`: the `getInventory` query, with its joins taken literally.
- `ClientData`: the JSON the client receives.
- `App`: `handleAction`.
- `QuickActions`: the dialogs, with the dialog state as an `ActionDialog` class.
- `TransactionsTable`: grouping loops proved against specification functions,
  plus the filters and the sort.
- `KpiCards`: the four cards.

The central invariant is `Ledger.Explains`. Every seeded inventory row holds
its seed, plus everything the log records as added for it, minus everything the
log records as sold for it. Every ledger mutation keeps this invariant. The
legacy sale breaks it, as the Findings below show.

## Model

| member | source | states |
|---|---|---|
| Common.Get | frontend/src/App.jsx:56 | a form field is present exactly when its key was submitted, and then it is that entry's value |
| Common.TrimStart | frontend/src/App.jsx:64 | the leading white space `parseInt` skips: a suffix of the text that does not start with white space, and everything cut off is white space |
| Common.ParseInt | frontend/src/App.jsx:64 | `parseInt` is NaN exactly when no digit follows the leading white space and optional sign; otherwise it is the digit run's value, negated after a '-' |
| Common.ParseIntOrZero | frontend/src/App.jsx:64 | `parseInt(x) \|\| 0`: 0 for a missing field or one with no leading digits, otherwise the parsed number |
| Common.ParseDecimalString | frontend/src/App.jsx:20-22 | parsing the decimal text of any integer id gives that id back |
| Common.AllIsNotANumber | frontend/src/App.jsx:21 | `parseInt("all")` is NaN, so "all" is never a location id |
| Common.BeforeT | backend/controllers/inventoryController.js:49 | `split('T')[0]` is a prefix of the string, holds no 'T', and stops only at a 'T' |
| Common.LexLeTotal | frontend/src/components/TransactionsTable.jsx:71 | string `<=` compares any two date keys |
| Common.LexLeTransitive | frontend/src/components/TransactionsTable.jsx:71 | string `<=` is transitive, so the range filter is an interval |
| Sorting.SortBy | backend/controllers/inventoryController.js:35 | the result is ordered by the key (descending or ascending) and is a permutation of the input |
| Ledger.ResolveSku | backend/controllers/inventoryController.js:75 | the item sub-select finds an item exactly for "4x5" and "4x8", and that item is named as given |
| Ledger.TruckQuantities | backend/controllers/inventoryController.js:52-67 | every truck entry is a positive quantity of a distinct SKU; there are none exactly for a truthy type other than "4x5"/"4x8", and two exactly for a falsy type |
| Ledger.CustomUpdates | backend/controllers/inventoryController.js:92-95 | the 4x5 update then the 4x8 update; what the add loop applies per SKU is the quantity when it is positive and 0 otherwise |
| Ledger.Bump | backend/controllers/inventoryController.js:71-76 | an UPDATE moves only the matched row by the delta, never adds a row, and a missing row changes nothing |
| Ledger.AppendRecord | backend/controllers/inventoryController.js:78-81 | appending a record changes the log's net total for a row by exactly that record's signed effect |
| Ledger.AddAllAt | backend/controllers/inventoryController.js:69-83 | the add loop raises each row of the location by the positive quantities listed for its SKU, and leaves every other row alone |
| Ledger.AddRowsShape | backend/controllers/inventoryController.js:69-83 | each logged record is an "add" of a positive quantity of a known SKU at the location and date; the log's added total per SKU equals the rows' increase |
| Ledger.FullTruck4x5Adds | backend/controllers/inventoryController.js:54-57 | a "4x5" truck adds 1000 sheets of 4x5 and logs one record |
| Ledger.FullTruck4x8Adds | backend/controllers/inventoryController.js:58-59 | a "4x8" truck adds 640 sheets of 4x8 and logs one record |
| Ledger.SplitTruckAdds | backend/controllers/inventoryController.js:61-67 | a falsy truck type adds 500 of 4x5 then 300 of 4x8 with two records, whatever `mode` says |
| Ledger.SplitExactlyWhenFalsy | backend/controllers/inventoryController.js:54-67 | the 50/50 quantities are used exactly when the truck type is falsy |
| Ledger.UnknownTruckTypeAddsNothing | backend/controllers/inventoryController.js:54-60 | a truthy but unknown truck type updates nothing and logs nothing |
| Ledger.CustomAdds | backend/controllers/inventoryController.js:92-111 | a custom add raises each SKU's row by its quantity when that quantity is positive, and by 0 otherwise |
| Ledger.CustomZeroIsNoop | backend/controllers/inventoryController.js:97-98 | quantities that are not positive neither update nor log |
| Ledger.Store.constructor | backend/db/index.js:18-33 | a store seeded by the schema, with an empty log, satisfies the ledger invariant |
| Ledger.Store.Post | backend/controllers/inventoryController.js:120-130 | one UPDATE-then-INSERT pair moves the row by the signed quantity, appends exactly its record, and keeps the ledger invariant |
| Ledger.Store.AddEach | backend/controllers/inventoryController.js:69-83 | the loop's new inventory and log are those of the specification functions, and the loop keeps the invariant |
| Ledger.Store.AddTruck | backend/controllers/inventoryController.js:47-86 | `addTruck`: the truck quantities are applied and logged under `transactionDate` or today, keeping the invariant |
| Ledger.Store.AddCustom | backend/controllers/inventoryController.js:88-114 | `addCustom`: the two custom updates are applied and logged, keeping the invariant |
| Ledger.Store.Sell | backend/controllers/inventoryController.js:116-133 | `sell`: subtracts with no stock check, logs one "sell" record (item NULL for an unknown type), and keeps the invariant |
| LegacyActions.Deltas | backend/routes/actions.js:18-39 | truck actions add to both SKUs, a sale never adds, custom uses the sent quantities (missing as 0), and any other action moves nothing |
| LegacyActions.LegacyRows | backend/routes/actions.js:60-66 | two records at the location and date, 4x5 then 4x8, holding the two deltas as given, typed "sell" exactly for the sell action |
| LegacyActions.LoggedKind | backend/routes/actions.js:65 | both legacy log rows are typed "sell" exactly for the sell action |
| LegacyActions.TruckDeltas | backend/routes/actions.js:24-31 | full truck is +120/+80 and split is +60/+40, whatever quantities were sent |
| LegacyActions.CustomDeltasAsGiven | backend/routes/actions.js:32-35 | custom deltas are the sent quantities, with missing ones as 0 and no positivity filter |
| LegacyActions.SellDeltasNeverPositive | backend/routes/actions.js:36-39 | a legacy sale's deltas are never positive, and their magnitude is that of the sent quantity |
| LegacyActions.UnknownActionDeltasZero | backend/routes/actions.js:21-66 | an unknown action leaves the inventory unchanged and still logs two zero-quantity "add" records at the location and date |
| LegacyActions.PostAction | backend/routes/actions.js:16-66 | the handler as written: both rows of the location move by their deltas and two signed-delta records are appended |
| LegacyActions.LegacyUpdateFrame | backend/routes/actions.js:42-57 | only the two rows of the chosen location move |
| LegacyActions.LegacySellBreaksLedger | backend/routes/actions.js:36-38 | a legacy sale of 3 from a row of 10 leaves a store the log no longer explains |
| LegacyActions.CorrectedRowsKeepLedger | backend/routes/actions.js:60-66 | logging the magnitude with the type carrying the direction keeps the ledger invariant for every action |
| LegacyActions.PostActionCorrected | backend/routes/actions.js:42-66 | the corrected handler has the same inventory effect and keeps the store consistent |
| Snapshot.InventoryOf | backend/controllers/inventoryController.js:38 | exactly the inventory rows of the location |
| Snapshot.TransactionsOf | backend/controllers/inventoryController.js:40 | exactly the transactions of the location |
| Snapshot.Attach | backend/controllers/inventoryController.js:39 | each inventory row is paired with the item of its item id, or with NULL when no item has that id |
| Snapshot.InventorySide | backend/controllers/inventoryController.js:38-39 | one all-NULL row when the location has no stock; otherwise its inventory rows, each with its own item or NULL |
| Snapshot.TransactionSide | backend/controllers/inventoryController.js:40 | one NULL row when the location has no transactions; otherwise exactly its transactions, in order, one per row |
| Snapshot.PairsAt | backend/controllers/inventoryController.js:37-40 | joining one inventory-side row with the transaction side gives, at position `b`, that row with transaction-side row `b` |
| Snapshot.CrossAt | backend/controllers/inventoryController.js:37-40 | joined row `a * m + b` (with `m` transaction-side rows) is inventory-side row `a` with transaction-side row `b` |
| Snapshot.CrossCovers | backend/controllers/inventoryController.js:37-40 | every pair of an inventory-side row and a transaction-side row appears among the joined rows |
| Snapshot.CrossMembers | backend/controllers/inventoryController.js:37-40 | every joined row carries a row of the transaction side and a row of the inventory side |
| Snapshot.CrossLength | backend/controllers/inventoryController.js:37-40 | the joins yield one row per pair of an inventory-side row and a transaction-side row |
| Snapshot.RowValue | backend/controllers/inventoryController.js:20 | a joined row adds quantity × price to the value, and 0 when its inventory row or item is NULL |
| Snapshot.RowProfit | backend/controllers/inventoryController.js:21-26 | a joined row adds to the profit only for a "sell" transaction with an item, and then quantity × that item's profit |
| Snapshot.ItemEntries | backend/controllers/inventoryController.js:12-19 | `json_agg` of the items yields one object per joined row, the object of that row |
| Snapshot.RowTransaction | backend/controllers/inventoryController.js:28-34 | a listed transaction keeps its id, type, date and timestamp; its quantity goes under "4x5" or "4x8" when the joined item has that type, and both columns are 0 otherwise |
| Snapshot.TxEntries | backend/controllers/inventoryController.js:28-36 | one entry for each joined row that has a transaction and nothing else: every such row's entry is listed, every listed entry comes from such a row, and their number is the number of such rows |
| Snapshot.View | backend/controllers/inventoryController.js:7-45 | a location's result row keeps its id and name, has one item object per (inventory row, transaction) pairing, and lists its transactions newest first as a permutation of the joined rows' entries |
| Snapshot.GetInventory | backend/controllers/inventoryController.js:7-45 | one view per location, with its id and name; ids stay distinct |
| Snapshot.EmptyLocationView | backend/controllers/inventoryController.js:12-40 | a location with no stock and no transactions shows zero value and profit, one all-NULL item and a NULL list |
| Snapshot.LiteralValue | backend/controllers/inventoryController.js:20 | the reported value is the stock worth times the number of the location's transactions (times 1 with none) |
| Snapshot.LiteralProfit | backend/controllers/inventoryController.js:21-26 | the reported profit is the sold quantity times the sum of the profits of every stocked item |
| Snapshot.ListedTransactions | backend/controllers/inventoryController.js:27-36 | the list is NULL exactly when the location has no transactions; otherwise it is newest first with one entry per (inventory row, transaction) pair |
| Snapshot.EntryOfJoinedRow | backend/controllers/inventoryController.js:27-36 | an entry drawn from joined rows comes from one of their transactions, with its quantity in at most one column |
| Snapshot.ListedEntriesAreOwn | backend/controllers/inventoryController.js:27-36 | every listed entry is one of the location's own transactions, with its quantity in at most one column |
| Snapshot.OwnEntry | backend/controllers/inventoryController.js:30-31 | with the transaction's own item, the quantity lands whole in that SKU's column |
| Snapshot.OwnEntries | backend/controllers/inventoryController.js:27-36 | one entry per transaction, in order |
| Snapshot.StockEntries | backend/controllers/inventoryController.js:12-19 | one item object per inventory row, with its quantity and the type, price and profit of its item (all NULL when the item is missing) |
| Snapshot.IntendedView | backend/controllers/inventoryController.js:12-40 | without the fan-out there is one item per inventory row; the list is NULL exactly without transactions, and otherwise newest first and a permutation of one own-item entry per transaction |
| Snapshot.SalesProfitAppend | backend/controllers/inventoryController.js:21-26 | intended profit is additive over appended transactions |
| Snapshot.IntendedViewRecord | backend/controllers/inventoryController.js:20-26 | recording a transaction leaves the intended value alone and adds exactly that sale's own profit |
| Snapshot.ValueFanOutExample | backend/controllers/inventoryController.js:20 | 10 sheets at 100 cents with two transactions are reported as 2000, where 1000 is meant |
| Snapshot.LiteralStockValue | backend/controllers/inventoryController.js:20 | the reported value of 10 sheets at 100 cents with two transactions is 2000 |
| Snapshot.ProfitFanOutExample | backend/controllers/inventoryController.js:21-26 | a sale of 3 at profit 10, at a location stocking both SKUs, is reported as 90, where 30 is meant |
| Snapshot.LiteralSaleProfit | backend/controllers/inventoryController.js:21-26 | the reported profit of that sale is 90 |
| Snapshot.IntendedSaleProfit | backend/controllers/inventoryController.js:21-26 | the intended profit of that sale is 30, its own item's profit times 3 |
| ClientData.FirstQuantity | frontend/src/components/QuickActions.jsx:43-44 | the quantity of the first item with the SKU (0 when null), or 0 when there is none |
| ClientData.FindLocation | frontend/src/components/QuickActions.jsx:40 | the first location with the id, or none exactly when no location has it; NaN matches nothing |
| App.NumericLocationId | frontend/src/App.jsx:20-22 | "all" stays "all", anything else is its `parseInt` |
| App.RequestFor | frontend/src/App.jsx:49-78 | a request exists exactly for a specific location and one of the four actions; it carries the parsed location and the form date, and its endpoint matches its body |
| App.HandleAction | frontend/src/App.jsx:41-87 | alerts exactly for "all", sends the request above, and refreshes exactly after a successful reply |
| App.SplitRequestTakesSplitBranch | frontend/src/App.jsx:58-61 | a 50/50 request carries no truck type, so the server takes its split branch |
| App.ChosenTruckTypeAddsOneSku | frontend/src/App.jsx:53-57 | a full-truck request after a type was chosen adds one full truck of that SKU only |
| App.FullTruckWithoutTypeAddsSplit | frontend/src/App.jsx:53-57 | a full-truck request with no type field is served as a 50/50 truck |
| App.CheckedRequestFor | frontend/src/App.jsx:53-57 | a full truck is requested exactly when its type is "4x5" or "4x8", and is then the original request, adding exactly one full truck; other actions are unchanged |
| App.CustomRequestUpdates | frontend/src/App.jsx:62-65 | a custom request carries the parsed fields, which become `addCustom`'s two updates |
| App.SellRequestFields | frontend/src/App.jsx:66-69 | a sale carries the chosen item type and the parsed quantity, 0 when the field is missing |
| App.SelectedIdRoundTrip | frontend/src/App.jsx:50 | a location picked in the selector is sent back with its own id |
| QuickActions.OfferedActions | frontend/src/components/QuickActions.jsx:94-98 | no action is offered unless a specific location is selected, and then all four are |
| QuickActions.CurrentInventory | frontend/src/components/QuickActions.jsx:38-46 | empty exactly when there is no data, no selection, no such location or no items; otherwise both SKUs with their first listed quantities |
| QuickActions.SellWarning | frontend/src/components/QuickActions.jsx:55-63 | a warning exactly when the parsed quantity exceeds the available stock of the chosen SKU (4x5 by default), and it shows that stock |
| QuickActions.WarningAgainstListedStock | frontend/src/components/QuickActions.jsx:38-63 | against a listed location, the warning appears exactly above its listed quantity |
| QuickActions.NoDataWarnsOnAnySale | frontend/src/components/QuickActions.jsx:39-60 | without data, any positive quantity warns |
| QuickActions.TruckFormValues | frontend/src/components/QuickActions.jsx:161-166 | the form submits `truckType` exactly when one was chosen, and always the date |
| QuickActions.ActionDialog.constructor | frontend/src/components/QuickActions.jsx:20-25 | the six state fields start at their initial values |
| QuickActions.ActionDialog.Open | frontend/src/components/QuickActions.jsx:117 | opening sets the current action and nothing else |
| QuickActions.ActionDialog.ChooseTruckType | frontend/src/components/QuickActions.jsx:139-156 | a type button sets the truck type and nothing else |
| QuickActions.ActionDialog.ChangeDate | frontend/src/components/QuickActions.jsx:298 | the date input sets the date and nothing else |
| QuickActions.ActionDialog.FullTruckValues | frontend/src/components/QuickActions.jsx:135-166 | the open full-truck form submits a type exactly when one was chosen |
| QuickActions.ActionDialog.SellChange | frontend/src/components/QuickActions.jsx:48-64 | the item select updates the chosen type; every change recomputes the warning; nothing else changes |
| QuickActions.ActionDialog.Reset | frontend/src/components/QuickActions.jsx:81-86 | all six fields return to their initial values |
| QuickActions.ActionDialog.Submit | frontend/src/components/QuickActions.jsx:66-90 | an unconfirmed over-sale only arms the confirmation; otherwise the handler is called when there is one, and the dialog resets unless the call rejects |
| QuickActions.ActionDialog.OpenChange | frontend/src/components/QuickActions.jsx:104-113 | closing resets the dialog, opening changes nothing |
| QuickActions.OverSellNeedsTwoConfirms | frontend/src/components/QuickActions.jsx:55-79 | entering any quantity above the stock needs two confirms, and only the second calls the handler, with the form values, the default date included |
| QuickActions.ConfirmFullTruckWithoutType | frontend/src/components/QuickActions.jsx:135-166 | confirming a full truck before choosing a type sends a request the server serves as 50/50 |
| TransactionsTable.Keys | frontend/src/components/TransactionsTable.jsx:31-40 | the date keys of the groups are distinct |
| TransactionsTable.KeysFirstSeenOrder | frontend/src/components/TransactionsTable.jsx:31-40 | the keys are listed in the order of their first transactions |
| TransactionsTable.KeyListed | frontend/src/components/TransactionsTable.jsx:28-31 | every transaction's date key has a group |
| TransactionsTable.FirstIndex | frontend/src/components/TransactionsTable.jsx:31-40 | a group is created by the first transaction with its key |
| TransactionsTable.GroupOf | frontend/src/components/TransactionsTable.jsx:31-44 | a group's date has its key, and the group carries its location |
| TransactionsTable.GroupsFor | frontend/src/components/TransactionsTable.jsx:47-49 | the groups are listed in key order |
| TransactionsTable.IndexByDate | frontend/src/components/TransactionsTable.jsx:25-45 | the grouping loop builds exactly one group per key, each equal to its specification |
| TransactionsTable.GroupLocation | frontend/src/components/TransactionsTable.jsx:23-50 | one location's rows are its groups in first-seen order |
| TransactionsTable.AllTransactions | frontend/src/components/TransactionsTable.jsx:18-53 | `allTransactions` equals the grouped specification, with no rows without data |
| TransactionsTable.OneRowPerDateKey | frontend/src/components/TransactionsTable.jsx:28-40 | exactly one row per distinct date key of the location |
| TransactionsTable.GroupSumsConserved | frontend/src/components/TransactionsTable.jsx:43-44 | summing per key loses and duplicates nothing |
| TransactionsTable.GroupingConservesQuantities | frontend/src/components/TransactionsTable.jsx:42-44 | the rows' 4x5 and 4x8 totals equal those of the location's transactions |
| TransactionsTable.AtLocation | frontend/src/components/TransactionsTable.jsx:61 | keeps exactly the rows of that id, each as many times as in the input; NaN keeps none |
| TransactionsTable.LocationFiltered | frontend/src/components/TransactionsTable.jsx:59-65 | an explicit location filter wins over the selection; with both "all" every row stays; a kept row appears as many times as in the input |
| TransactionsTable.InDateRange | frontend/src/components/TransactionsTable.jsx:67-72 | keeps exactly the rows whose date key lies in the range, both ends included, each as many times as in the input |
| TransactionsTable.SortRows | frontend/src/components/TransactionsTable.jsx:74-87 | newest first for "reverse", oldest first otherwise, and a permutation |
| TransactionsTable.FilteredTransactions | frontend/src/components/TransactionsTable.jsx:56-90 | the shown rows are exactly the rows of the chosen location within the date range, each as many times as in the input, sorted in the chosen date order |
| TransactionsTable.TypeLabel | frontend/src/components/TransactionsTable.jsx:92-100 | "Sale" exactly for non-add rows; for additions, "Full 4x5"/"Full 4x8" exactly for that truck type, "50/50" exactly for split mode without one, "Custom Add" otherwise |
| TransactionsTable.TypeLabelMatchesDelivery | frontend/src/components/TransactionsTable.jsx:92-100 | a "Full" label is given exactly when the server's truck branch adds one full truck of that SKU; the split request is labelled "50/50" and added as 500 + 300 |
| TransactionsTable.GroupedRowsLabels | frontend/src/components/TransactionsTable.jsx:32-39 | grouped rows carry no truck type or mode, so no row is labelled a truck delivery: every addition reads "Custom Add" |
| KpiCards.WithId | frontend/src/components/KPICards.jsx:12 | keeps exactly the locations with that id; NaN keeps none |
| KpiCards.FilteredLocations | frontend/src/components/KPICards.jsx:9-12 | all locations for "all", otherwise those whose id is the parsed selection |
| KpiCards.Kpis | frontend/src/components/KPICards.jsx:30-35 | four cards in display order with their ids |
| KpiCards.Render | frontend/src/components/KPICards.jsx:4-7 | loading wins, then no data, otherwise four cards |
| KpiCards.KpisAdditive | frontend/src/components/KPICards.jsx:14-28 | each total over two groups of locations is the sum of the two totals |
| KpiCards.WithIdKeepsOne | frontend/src/components/KPICards.jsx:12 | with distinct ids, filtering by a location's id keeps just that location |
| KpiCards.SelectedLocationCards | frontend/src/components/KPICards.jsx:9-35 | selecting a location shows exactly that location's four figures |

## Left out

- HTTP, routing and Express (`res.json`, status codes, the 500 path of `POST /actions`): the handlers are modelled from the decoded body to the new store.
- The database connection and schema: tables are values, and item prices and profits are a map given as a parameter.
- Concurrency: `Promise.all` in the legacy handler and interleaved requests. Statements run one after another.
- Failures of a query part-way through a loop: the store is updated statement by statement and never rolls back.
- Clocks: "today" (`new Date().toISOString().split('T')[0]`) is a parameter. The legacy insert's date column default is a parameter too.
- `new Date(...)` as a time value: it is an abstract `time: string -> int` given to the sort.
- Floating point, the `/ 100` cents conversion, `toLocaleString` and `formatDate`: figures stay integer cents.
- The grouping's non-string date branch (`new Date(txDate).toISOString()`): dates reach the client as JSON strings.
- Integer-like keys in `txByDate`, which JavaScript would enumerate before other keys: the model keeps first-seen order, and date keys are not integer-like.
- JavaScript string comparison by UTF-16 code units: the model compares characters.
- PostgreSQL `bigint` sums arriving as strings, whose `+` in the KPI totals would concatenate: the model adds numbers.
- `Number()` on non-numeric legacy quantities, which gives NaN: quantities are integers or missing.
- JSX layout, ARIA attributes, `alert` and `console.error`. DOM reads of the sell form fields are explicit inputs.
- `InventoryTable`, `LocationSwitcher`, the UI kit and `fetchInventory` are not part of this model.
- Fractional quantities: every quantity is an integer, as the request builder's `parseInt` makes it.
- Row order the database leaves open: the order of the `GROUP BY` result rows, the order of the `json_agg` item objects and the order among transactions with equal `created_at`. The model fixes one order for each, so only the contents of these lists, and the newest-first order of the transaction list, are claims.
- `parseInt` without a radix: the "0x" hexadecimal prefix and white space beyond space, tab, line feed and carriage return (vertical tab, form feed, no-break space, other Unicode spaces) are not modelled. The client passes it number-input text and `String(id)`, which hold neither.

## Findings

| source | as written | input that shows it | evidently intended | confidence | as-written member | corrected member |
|---|---|---|---|---|---|---|
| backend/controllers/inventoryController.js:20 | the value sum runs over the joined rows, and each inventory row repeats once per transaction of the location | 10 sheets at 100 cents and two transactions: reported 2000 | 1000, the stock worth | not executed | Snapshot.LiteralValue | Snapshot.IntendedView |
| backend/controllers/inventoryController.js:21-26 | profit multiplies each sale by the profit of the inventory row's item, for every inventory row | a sale of 3 of 4x5 (profit 10) where 4x8 (profit 20) is also stocked: reported 90 | 30, the sale's own item profit | not executed | Snapshot.ProfitFanOutExample | Snapshot.IntendedViewRecord |
| backend/controllers/inventoryController.js:27-36 | each transaction is listed once per inventory row, its quantity under that row's SKU | one 4x5 sale at a location stocking both SKUs: listed twice, once in each column | one entry per transaction, under its own SKU | not executed | Snapshot.ListedTransactions | Snapshot.OwnEntry |
| backend/routes/actions.js:36-38 | a sale logs its negative delta under type "sell" | selling 3 of 4x5 from 10 leaves 7, while the log implies 13 | the magnitude logged, with the type giving the direction | not executed | LegacyActions.LegacySellBreaksLedger | LegacyActions.CorrectedRowsKeepLedger |
| frontend/src/App.jsx:53-57 | the full-truck form can be confirmed before a type is chosen, and then `truckType` is undefined | open "Add Full Truck" and confirm: the server adds 500 + 300 | no full-truck request without a type | not executed | App.FullTruckWithoutTypeAddsSplit | App.CheckedRequestFor |

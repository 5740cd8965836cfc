# Martha bookkeeping core in Dafny

Martha is a bookkeeping app for a small mission organisation. It runs entirely
in the browser. It records receipts and payments (transactions), the circuits
(branches) they belong to, and an inventory of merchandise products with stock
movements. From these it builds quarterly reports. This project models the
app's deterministic core and proves properties of the model.

- **The six tables** become the class `Database.Db`. Each of its fields is a
  sequence in insertion order. `Database.Tables` is a snapshot of all six at
  one moment.
- **The record stores** for transactions, circuits and products are methods on
  `Db`: add with a given uid, update by uid, delete by uid. Their getters and
  totals are functions over the sequences.
- **Stock bookkeeping** has two rules, and both are modelled:
  - the incremental rule of the inventory store: each movement sets stock to
    `max(0, stock ± quantity)`;
  - the full refold of the historical seeder: `max(0, Σ signed quantity)`.
  
  The two are proved to agree while no running total dips below zero. They are
  also proved to differ after a dip: a sale of 5 from 0 followed by a purchase
  of 5 gives 5 incrementally but 0 by refold.
- **The report engine** (`buildReportData`) covers the period filter, the
  category, circuit and monthly breakdowns, the previous-quarter growth, the
  median, averages, largest items, busiest and quietest month, operating ratio
  and surplus/deficit flag. The reports page's simpler copy is modelled too:
  its chart data, year options and CSV export.
- **The pages' event handlers** are modelled as follows:
  - the four-step entry wizard, with step validation, line items and
    submission;
  - the transaction detail modal, whose view/edit/delete modes and form are a
    class;
  - the inventory page's product and movement forms;
  - the circuits page's form and sub-branch parsing;
  - the settings page's backup export, import and delete-all.
- **Seeding** covers the default seed, guarded by an empty circuit table, and
  the historical seed, guarded by an empty transaction table.
- **The mascot's message store** is a class with the two persisted flags.

## Modelling conventions

- **Money** is `int` cents. Quantities are `int`. Averages, percentages and the
  stock bar are `real`.
- **A date** is `(year, month 0..11, day)`.
- **A numeric text input** is `NumText`: `Empty`, `Invalid` (what `parseFloat`
  turns into `NaN`), or `Num(v)`.
  - `parseFloat(x) || d` and `parseInt(x) || d` become `Types.OrDefault(x, d)`,
    because `NaN` and `0` are both falsy.
  - `x || undefined` on text becomes `Types.NonEmpty`.
- **Category values** are strings. This keeps representable the empty category
  that the modal can save.
- **Generated values** — uids, timestamps and "today" — are parameters.
- **JavaScript sorts** with a comparator `key(a) - key(b)` are one stable
  insertion sort, `Sorting.SortBy`.
- **A JavaScript `Map`** filled by `forEach` is an association sequence in
  first-encounter order. It is built by the loop `Grouping.GroupLoop` and
  specified by the fold `Grouping.Group`.

## Behaviours of the code worth knowing

- **Two stock rules.** The inventory store applies the incremental clamp
  `Math.max(0, currentStock + change)` after each movement
  (src/store/useInventoryStore.ts:67-73). The historical seeder instead refolds
  all of a product's movements (src/db/seedHistoricalData.ts:611-632). Both are
  modelled: `InventoryStore.AddStockMovement` is incremental and
  `SeedHistorical.RecalculateStock` refolds. `SeedHistorical.RulesDisagreeAfterDip`
  shows where they part.
- **The low-stock mark.** The inventory page marks a product low when
  `stock <= reorderLevel`. The store's `getLowStockProducts` also demands
  `stock >= 0`. Both are modelled, and `InventoryPage.LowMarksAgree` relates
  them.
- **The wizard's amount check.** It rejects an empty amount or one that parses
  to ≤ 0. A non-numeric text slips through, because `NaN <= 0` is false.
  `EntryPage.AmountMissing` keeps this.
- **The modal's save check.** It does not check the category. After a type
  toggle, a save stores an empty category (`TransactionModal.EmptyCategoryIsSaved`).

## Model

| member | source | states |
|---|---|---|
| Database.Db.constructor | src/db/database.ts:8-27 | a freshly opened database has six empty tables |
| Types.NonEmpty | src/components/ui/TransactionDetailModal.tsx:98 | `x \|\| undefined`: absent exactly for the empty text, otherwise the text itself |
| Types.OrDefault | src/pages/InventoryPage.tsx:121-124 | `parseFloat(x) \|\| d`: the parsed number when it is a non-zero number, the default for empty, unparsable or zero input |
| Sorting.SortBy | src/utils/reportData.ts:129 | the sort returns a permutation of its input (same length and multiset) ordered by non-decreasing key |
| Sorting.SortStable | src/utils/reportData.ts:129 | the sort is stable: the elements with any one key keep their original relative order |
| Sorting.SortSumBy | src/utils/reportData.ts:121-129 | sorting does not change any sum over the rows |
| Grouping.GroupLoop | src/utils/reportData.ts:113-120 | the `forEach` that fills the Map yields exactly the fold `Group` over the transactions |
| Grouping.GroupKeysInEncounterOrder | src/utils/reportData.ts:114-121 | the Map's keys are the distinct keys of the input in order of first encounter |
| Grouping.GroupOneEntryPerKey | src/utils/reportData.ts:114-121 | the grouped entries have pairwise distinct keys |
| Grouping.GroupEntryIsFilteredSum | src/utils/reportData.ts:116-119 | the entry for a key holds the sums and the count over exactly the transactions with that key |
| Grouping.GroupTotals | src/utils/reportData.ts:116-119 | the entries' sums add up to the sums over all input, and their counts to its length |
| Strings.TrimIsTrimmed | src/pages/CircuitsPage.tsx:73 | `trim` leaves no leading or trailing whitespace and keeps a contiguous slice of the text |
| Strings.SplitJoin | src/pages/CircuitsPage.tsx:63-72 | splitting a join on a separator no piece contains gives back the pieces |
| Helpers.QuarterOfMonth | src/utils/helpers.ts:35-38 | `floor(month / 3) + 1` is the quarter q with 3(q-1) <= month < 3q |
| Helpers.QuarterOfMonthIff | src/utils/helpers.ts:35-38 | month m lies in quarter q if and only if 3(q-1) <= m <= 3(q-1)+2 |
| Helpers.GetQuarterFromDate | src/utils/helpers.ts:35-38 | the quarter of a date is the quarter containing its month |
| Helpers.GetCurrentQuarter | src/utils/helpers.ts:24-27 | the current quarter uses the same month-to-quarter formula, applied to today |
| Helpers.ToISODate | src/utils/helpers.ts:58-60 | the date part is the prefix of the ISO text up to, not including, the first 'T' |
| Helpers.Capitalize | src/utils/helpers.ts:73-75 | length is kept, only the first character is upper-cased, and '' stays '' |
| Helpers.CapitalizeIdempotent | src/utils/helpers.ts:73-75 | capitalising twice is capitalising once |
| Helpers.CategoryLabelWords | src/utils/helpers.ts:78-80 | the label has one space-separated word per '_'-separated part, each capitalised |
| Helpers.Clamp | src/utils/helpers.ts:83-85 | the result lies in [lo, hi] when lo <= hi, equals n when n is in range, lo below the range, hi above it or whenever lo > hi |
| Constants.ReceiptCategoriesWellFormed | src/utils/constants.ts:9-17 | every receipt option has type receipt, and their values are distinct |
| Constants.PaymentCategoriesWellFormed | src/utils/constants.ts:19-30 | every payment option has type payment, and their values are distinct |
| Constants.CategoryDisplayLabel | src/utils/reportData.ts:124 | the label of the first option in `ALL_CATEGORIES` with that value, or the value itself when no option has it or the label is empty |
| Constants.OtherLabelIsIncome | src/utils/constants.ts:16-32 | 'other' is listed among both receipts and payments, so the first-match lookup names it "Other Income" even for a payment |
| Constants.DefaultsWellFormed | src/utils/constants.ts:36-63 | there are 8 default circuits and 13 default products, each selling at or above cost with a positive reorder level |
| Constants.QuarterLabel | src/utils/constants.ts:67-72 | a quarter label exists exactly for quarters 1 to 4 |
| Constants.QuarterMonths | src/utils/constants.ts:74-79 | each of quarters 1 to 4, and no other number, names three months |
| ReportData.QuarterMonthsAreItsMonths | src/utils/constants.ts:74-79 | the months listed for quarter q are months 3(q-1) to 3(q-1)+2 of the year |
| TransactionStore.GetByType | src/store/useTransactionStore.ts:75 | an order-preserving subsequence holding exactly the transactions of that type, each as often as in the input |
| TransactionStore.GetByQuarterYear | src/store/useTransactionStore.ts:77-78 | an order-preserving subsequence holding exactly the transactions of that quarter and year, each as often as in the input |
| TransactionStore.TotalWithoutPeriod | src/store/useTransactionStore.ts:80-89 | without a full period the total sums the amounts of every transaction of the type |
| TransactionStore.TotalWithPeriod | src/store/useTransactionStore.ts:80-89 | with a period the total sums the amounts of that type within `getByQuarterYear` |
| TransactionStore.TotalsCoverPeriod | src/store/useTransactionStore.ts:77-89 | receipts plus payments of a period equal the sum over `getByQuarterYear` of that period |
| TransactionStore.BalanceIsSignedSum | src/store/useTransactionStore.ts:92-94 | the balance is the sum of receipts counted positive and payments counted negative |
| TransactionStore.Stamped | src/store/useTransactionStore.ts:48-57 | the new record carries the fresh uid and timestamps and otherwise the given fields |
| TransactionStore.Merge | src/store/useTransactionStore.ts:59-65 | each field is the patch's when given, else the old one; uid and createdAt are kept and updatedAt is refreshed |
| TransactionStore.MergeEmpty | src/store/useTransactionStore.ts:59-65 | an empty patch changes only updatedAt |
| TransactionStore.UpdatedByUid | src/store/useTransactionStore.ts:59-65 | only the first record with the uid is merged, the rest are kept, and an unknown uid changes nothing |
| TransactionStore.DeletedByUid | src/store/useTransactionStore.ts:67-73 | the first record with the uid is cut out, the rest keep their order, and an unknown uid changes nothing |
| TransactionStore.DeleteRemovesOne | src/store/useTransactionStore.ts:67-73 | deleting a present uid removes exactly one record, the one lookups find, leaving an order-preserving subsequence |
| TransactionStore.AddedIsFound | src/store/useTransactionStore.ts:48-57 | after adding under a fresh uid, a lookup by that uid finds the new record |
| TransactionStore.AddTransaction | src/store/useTransactionStore.ts:48-57 | appends exactly the stamped record; no other table changes |
| TransactionStore.UpdateTransaction | src/store/useTransactionStore.ts:59-65 | the table becomes `UpdatedByUid` of the old one; no other table changes |
| TransactionStore.DeleteTransaction | src/store/useTransactionStore.ts:67-73 | the table becomes `DeletedByUid` of the old one; no other table changes |
| CircuitStore.GetCircuitByUid | src/store/useCircuitStore.ts:47 | the first circuit with the uid, or none if and only if no circuit has it |
| CircuitStore.StampedCircuit | src/store/useCircuitStore.ts:29-37 | the new circuit carries the fresh uid and timestamp and otherwise the given fields |
| CircuitStore.AddedCircuitIsFound | src/store/useCircuitStore.ts:29-47 | after adding under a fresh uid, `getCircuitByUid` returns the new circuit |
| CircuitStore.MergeCircuit | src/store/useCircuitStore.ts:39-45 | each field is the patch's when given, else the old one; uid and createdAt are kept |
| CircuitStore.CircuitsUpdated | src/store/useCircuitStore.ts:39-45 | only the first circuit with the uid is merged, and an unknown uid changes nothing |
| CircuitStore.AddCircuit | src/store/useCircuitStore.ts:29-37 | appends exactly the stamped circuit; no other table changes |
| CircuitStore.UpdateCircuit | src/store/useCircuitStore.ts:39-45 | the circuits become `CircuitsUpdated` of the old ones; no other table changes |
| InventoryStore.Max0 | src/store/useInventoryStore.ts:72 | `Math.max(0, n)`: not negative, at least n, and either 0 or n |
| InventoryStore.StockChange | src/store/useInventoryStore.ts:70-71 | a sale takes its quantity out; a purchase or adjustment adds it |
| InventoryStore.GetProductByUid | src/store/useInventoryStore.ts:81 | the first product with the uid, or none if and only if no product has it |
| InventoryStore.GetLowStockProducts | src/store/useInventoryStore.ts:83-84 | an order-preserving subsequence holding exactly the products with 0 <= stock <= reorder level, each as often as in the input |
| InventoryStore.StampedProduct | src/store/useInventoryStore.ts:40-49 | the new product carries the fresh uid and timestamps and otherwise the given fields |
| InventoryStore.MergeProduct | src/store/useInventoryStore.ts:51-57 | each field is the patch's when given, else the old one; uid and createdAt are kept and updatedAt is refreshed |
| InventoryStore.ProductsUpdated | src/store/useInventoryStore.ts:51-57 | only the first product with the uid is merged, and an unknown uid changes nothing |
| InventoryStore.AddProduct | src/store/useInventoryStore.ts:40-49 | appends exactly the stamped product; no other table changes |
| InventoryStore.UpdateProduct | src/store/useInventoryStore.ts:51-57 | the products become `ProductsUpdated` of the old ones; no other table changes |
| InventoryStore.StampedMovement | src/store/useInventoryStore.ts:59-64 | the recorded movement carries the fresh uid and timestamp and otherwise the given fields |
| InventoryStore.ApplyMovement | src/store/useInventoryStore.ts:65-75 | the first product with the movement's product id gets stock `max(0, stock + change)` and a new updatedAt; no other product changes, and with no such product nothing changes |
| InventoryStore.AddStockMovement | src/store/useInventoryStore.ts:59-79 | the movement is always appended, and the products become `ApplyMovement` of the old ones |
| InventoryStore.MovementKeepsStockNonNegative | src/store/useInventoryStore.ts:72 | if no stock was negative before a movement, none is after |
| InventoryStore.MovementKeepsUids | src/store/useInventoryStore.ts:65-75 | a movement changes no product's uid |
| InventoryStore.MovementKeepsLookup | src/store/useInventoryStore.ts:65-75 | after a movement, a lookup by any uid finds the same position as before |
| InventoryStore.OwnMovementApplies | src/store/useInventoryStore.ts:65-73 | the product that lookups by its uid find takes a movement aimed at it |
| InventoryStore.OtherMovementSkips | src/store/useInventoryStore.ts:65-75 | a movement aimed at another uid leaves a product untouched |
| InventoryStore.ApplyMovementsIsIncremental | src/store/useInventoryStore.ts:65-75 | over a series of movements, a product's stock follows the incremental clamp over exactly the changes of the movements aimed at it |
| SeedHistorical.Txn | src/db/seedHistoricalData.ts:23-48 | the record copies its arguments, with the circuit reference as `circuitId`, under the given uid and timestamps |
| SeedHistorical.Sm | src/db/seedHistoricalData.ts:51-75 | the movement copies its arguments, with the product reference as `productId`, under the given uid and timestamp |
| SeedHistorical.Cid | src/db/seedHistoricalData.ts:89 | the uid of the first circuit whose lower-cased name equals the lower-cased query, else '' |
| SeedHistorical.Pid | src/db/seedHistoricalData.ts:93-94 | the uid of the first product whose lower-cased name contains the lower-cased fragment, else '' |
| SeedHistorical.RefoldStock | src/db/seedHistoricalData.ts:617-627 | the recomputed stock is never negative |
| SeedHistorical.RefoldCountsOnlyOwnMovements | src/db/seedHistoricalData.ts:612-627 | the recomputed stock is `max(0, Σ signed quantity)` over exactly the movements with the product's uid |
| SeedHistorical.RefoldOrderIndependent | src/db/seedHistoricalData.ts:617-624 | the recomputed stock does not depend on the order of the movements |
| SeedHistorical.Recalculated1 | src/db/seedHistoricalData.ts:627-631 | the product gets the recomputed stock and a new updatedAt; nothing else changes |
| SeedHistorical.Recalculated | src/db/seedHistoricalData.ts:611-632 | every product, in place, is recalculated from the movement table |
| SeedHistorical.SumMovements | src/db/seedHistoricalData.ts:617-624 | the loop's running stock ends at the sum of the signed quantities |
| SeedHistorical.RecalculateStock | src/db/seedHistoricalData.ts:611-632 | the products become `Recalculated` from the movement table; no other table changes |
| SeedHistorical.SeededHistory | src/db/seedHistoricalData.ts:77-83 | with any transaction present nothing changes; otherwise the records are added and the stock recalculated |
| SeedHistorical.SeedHistoryIdempotent | src/db/seedHistoricalData.ts:79-83 | seeding a second time changes nothing more |
| SeedHistorical.SeedHistoricalData | src/db/seedHistoricalData.ts:77-636 | the tables become `SeededHistory` of the old ones |
| SeedHistorical.IncrementalAtLeastRefold | src/store/useInventoryStore.ts:70-73 | the incremental clamp never ends below the plain sum of the changes, nor below 0 |
| SeedHistorical.IncrementalWithoutDip | src/store/useInventoryStore.ts:70-73 | when no running total dips below zero, the incremental clamp equals the plain sum |
| SeedHistorical.RulesDisagreeAfterDip | src/db/seedHistoricalData.ts:617-627 | a sale of 5 from 0 then a purchase of 5 gives 5 incrementally but 0 by refold |
| SeedHistorical.IncrementalNotBelowRefold | src/db/seedHistoricalData.ts:617-627 | from stock 0, the stock recorded movement by movement is at least the refolded stock |
| SeedHistorical.IncrementalEqualsRefoldWithoutDip | src/db/seedHistoricalData.ts:617-627 | from stock 0, the two rules agree when no prefix of the product's movements sums below zero |
| Seed.DefaultCircuitRecords | src/db/seed.ts:17-24 | one active circuit per default entry, with name, country and sub-branches copied |
| Seed.DefaultProductRecords | src/db/seed.ts:28-38 | one product per default entry, with stock 0 and prices, reorder level and category copied |
| Seed.SeededDefaults | src/db/seed.ts:12-42 | the defaults are added only when the circuit table is empty; otherwise nothing changes |
| Seed.SeedDatabaseIdempotent | src/db/seed.ts:12-45 | seeding twice gives what seeding once gives: no duplicated circuits, products or history |
| Seed.SeedEmptyCircuits | src/db/seed.ts:12-39 | seeding an empty database leaves exactly the default circuits and 13 products |
| Seed.SeedDatabase | src/db/seed.ts:10-46 | the tables become the defaults seed followed by the historical seed |
| SettingsPage.ExportBackup | src/pages/SettingsPage.tsx:43-52 | the envelope has version 1 and all six tables |
| SettingsPage.ImportedTables | src/pages/SettingsPage.tsx:92-104 | each table becomes the backup's array, or empty when the backup omits it |
| SettingsPage.ExportImportRoundTrip | src/pages/SettingsPage.tsx:43-104 | an exported backup passes the shape check, and importing it restores all six tables |
| SettingsPage.BulkAddIfAny | src/pages/SettingsPage.tsx:99-104 | a table gets the backup's rows appended, or none when the backup omits them |
| SettingsPage.ImportBackup | src/pages/SettingsPage.tsx:86-104 | accepted exactly when version and transactions are present and truthy; a refused import changes nothing, an accepted one leaves `ImportedTables` |
| SettingsPage.DeleteAll | src/pages/SettingsPage.tsx:126-134 | the tables end as the seed of an empty database |
| SettingsPage.DeleteAllLeavesDefaults | src/pages/SettingsPage.tsx:126-134 | after delete-all the circuits are the defaults, the transactions are the historical ones and no document remains |
| MarthaStore.DismissedTips | src/store/useMarthaStore.ts:42-45 | length and order are kept, the tips with the id are marked dismissed, and the others are unchanged |
| MarthaStore.DismissIdempotent | src/store/useMarthaStore.ts:42-45 | dismissing a tip twice is dismissing it once |
| MarthaStore.DismissCommutes | src/store/useMarthaStore.ts:42-45 | dismissals of two ids commute |
| MarthaStore.Store.constructor | src/store/useMarthaStore.ts:28-32 | a new store greets with the welcome message, has no tips, and persists not-onboarded and first visit |
| MarthaStore.Store.Rehydrated | src/store/useMarthaStore.ts:49-55 | a store reloaded from storage has the default pose, message and tips and the saved flags |
| MarthaStore.Store.SetPose | src/store/useMarthaStore.ts:34 | sets the pose; nothing else changes |
| MarthaStore.Store.SetMessage | src/store/useMarthaStore.ts:35 | sets the message; nothing else changes |
| MarthaStore.Store.Speak | src/store/useMarthaStore.ts:36-40 | sets the message, and the pose when one is given, else keeps the old pose |
| MarthaStore.Store.AddTip | src/store/useMarthaStore.ts:41 | appends the tip at the end |
| MarthaStore.Store.DismissTip | src/store/useMarthaStore.ts:42-45 | the tips become `DismissedTips` of the old ones |
| MarthaStore.Store.CompleteOnboarding | src/store/useMarthaStore.ts:46 | the persisted flags become onboarded and not first visit |
| MarthaStore.Store.SetFirstVisit | src/store/useMarthaStore.ts:47 | sets the persisted first-visit flag only |
| ReportData.Median | src/utils/reportData.ts:86-87 | the median of no values is 0 |
| ReportData.MedianOddRank | src/utils/reportData.ts:86-90 | for an odd count n the median is a value with at most n/2 values below it and at least n/2+1 not above it |
| ReportData.MedianEvenRank | src/utils/reportData.ts:86-90 | for an even count the median is the mean of two values a <= b that rank at the two middle positions |
| ReportData.RankOfSorted | src/utils/reportData.ts:88-90 | the k-th element of the sorted values ranks at position k among them |
| ReportData.PreviousQuarter | src/utils/reportData.ts:93-96 | the quarter just before: Q1 of y goes to Q4 of y-1, any other q to q-1 of y |
| ReportData.PreviousQuarterIsInjective | src/utils/reportData.ts:93-96 | distinct quarters have distinct previous quarters |
| ReportData.Quotient | src/utils/reportData.ts:190-192 | a guarded average: 0 when the divisor is not positive, otherwise the exact quotient |
| ReportData.Percentage | src/utils/reportData.ts:127 | the share in percent of a positive total, 0 when the total is not positive |
| ReportData.Growth | src/utils/reportData.ts:181-182 | null exactly when the previous value is not positive; otherwise the change in percent, not negative exactly when the current value has not fallen |
| ReportData.StandingOf | src/utils/reportData.ts:207 | surplus, deficit or balanced exactly as the net balance is positive, negative or zero |
| ReportData.FmtPct | src/utils/reportData.ts:234-238 | 'N/A' exactly for null; otherwise the fixed-point text of the value followed by '%', preceded by '+' when the value is not negative and by nothing when it is negative |
| ReportData.BuildCategoryBreakdown | src/utils/reportData.ts:113-130 | the Map loop, row mapping and sort yield `CategoryBreakdownOf` |
| ReportData.CategoryBreakdownSorted | src/utils/reportData.ts:129 | rows are in non-increasing order of amount |
| ReportData.CategoryTiesInEncounterOrder | src/utils/reportData.ts:114-129 | rows with equal amounts keep first-encounter order, and the unsorted rows follow first encounter of each category |
| ReportData.CategoryOneRowEach | src/utils/reportData.ts:113-130 | exactly one row per distinct category of the input |
| ReportData.CategoryTotals | src/utils/reportData.ts:115-120 | row amounts sum to the input total, and row counts to the input size |
| ReportData.CategoryRowsFit | src/utils/reportData.ts:115-128 | each row holds the sum and count of its category's transactions, its label, and its guarded percentage |
| ReportData.CircuitName | src/utils/reportData.ts:147 | the name of the first circuit with the id; 'Unknown' when none has it or that name is empty |
| ReportData.BuildCircuitBreakdown | src/utils/reportData.ts:136-153 | the Map loop, row mapping and sort yield `CircuitBreakdownOf` |
| ReportData.CircuitBreakdownSorted | src/utils/reportData.ts:153 | rows are in non-increasing order of receipts |
| ReportData.CircuitBreakdownSkipsUnassigned | src/utils/reportData.ts:138 | transactions without a circuit id play no part |
| ReportData.ReceiptPartSum | src/utils/reportData.ts:140-141 | adding receipts to one side and everything else to the other gives the receipt and payment totals |
| ReportData.CircuitTotals | src/utils/reportData.ts:137-153 | row receipts, payments and counts sum to those of the transactions with a circuit |
| ReportData.CircuitRowsFit | src/utils/reportData.ts:136-151 | each row belongs to a circuit id some transaction carries: it is named after that id, its receipts and payments are the sums of that id's receipts and payments, its count is their number, and net = receipts - payments |
| ReportData.MonthRow | src/utils/reportData.ts:158-170 | month index 3(q-1)+offset with its name; the count, the receipt sum and the payment sum of that month's transactions; net = receipts - payments |
| ReportData.MonthlyBreakdownOf | src/utils/reportData.ts:156-171 | exactly three rows, one per month of the quarter |
| ReportData.ThreeMonthsCount | src/utils/reportData.ts:157-160 | the three month filters together count the transactions whose month lies in the quarter |
| ReportData.MonthCountsCoverQuarter | src/utils/reportData.ts:156-171 | the three counts sum to the number of filtered transactions dated in the quarter's months |
| ReportData.MonthCountsCoverPeriod | src/utils/reportData.ts:156-171 | when every filtered date falls in the quarter, the three counts sum to the number filtered |
| ReportData.ThreeMonthsSum | src/utils/reportData.ts:157-166 | any sum over the three month filters equals the sum over the transactions whose month lies in the quarter |
| ReportData.MonthSumsCoverQuarter | src/utils/reportData.ts:156-171 | the three months' receipts and payments sum to the receipts and payments dated in the quarter's months |
| ReportData.MonthSumsCoverPeriod | src/utils/reportData.ts:156-171 | when every filtered date falls in the quarter, the months' receipts and payments sum to the period's receipt and payment totals |
| ReportData.Largest | src/utils/reportData.ts:194-195 | null exactly for an empty subset |
| ReportData.LargestIsFirstMaximal | src/utils/reportData.ts:194-195 | for a non-empty subset, the first element of maximal amount |
| ReportData.TopFive | src/utils/reportData.ts:202-203 | `slice(0, 5)`: the first min(5, n) rows |
| ReportData.TopFiveAreLargest | src/utils/reportData.ts:202-203 | no category row left out of the top five has a larger amount than one kept |
| ReportData.BuildReportData | src/utils/reportData.ts:98-231 | the report built step by step equals `ReportOf` |
| ReportData.ReportTotals | src/utils/reportData.ts:104-110 | net = receipts - payments, the transaction count is receipts plus payments, and the totals agree with the store's period totals |
| ReportData.PeriodSplits | src/utils/reportData.ts:104-106 | the period's receipts and payments partition its transactions, in sum and in number |
| ReportData.ReportCategoriesAddUp | src/utils/reportData.ts:132-133 | each category breakdown sums to its type's total and count |
| ReportData.ReportGrowthIsNull | src/utils/reportData.ts:174-198 | each growth is null exactly when the previous quarter is empty or its figure is not positive; previous balance = previous receipts - previous payments |
| ReportData.ReportLargest | src/utils/reportData.ts:194-195 | the largest receipt or payment is null exactly when there is none, else the first of maximal amount |
| ReportData.ReportBusyAndQuietMonth | src/utils/reportData.ts:186-187 | the busy month is the first with the most transactions, the quiet month the first with the fewest |
| ReportData.ReportRatios | src/utils/reportData.ts:190-206 | averages and operating ratio are guarded quotients, 0 for no receipts or no transactions |
| ReportData.ReportStanding | src/utils/reportData.ts:207 | the surplus/deficit flag follows the sign of the net balance |
| ReportData.ReportMedian | src/utils/reportData.ts:185-193 | the median is over the filtered amounts, and 0 for an empty period |
| ReportData.ReportListsNewestFirst | src/utils/reportData.ts:228-229 | the full lists are permutations of the receipts and payments, newest first |
| ReportsPage.PageTotalsAgreeWithStore | src/pages/ReportsPage.tsx:54-63 | the page's receipts, payments and balance equal the store's period totals |
| ReportsPage.BuildCategorySlices | src/pages/ReportsPage.tsx:66-77 | the Map loop and sort yield `CategorySlicesOf` |
| ReportsPage.SlicesMatchReportRows | src/pages/ReportsPage.tsx:66-90 | the pie slices are the report's category rows, named by label and valued by amount |
| ReportsPage.SlicesAddUp | src/pages/ReportsPage.tsx:66-90 | one slice per distinct category, values summing to the type total, in non-increasing order |
| ReportsPage.BuildCircuitBars | src/pages/ReportsPage.tsx:114-130 | the Map loop and sort yield `CircuitBarsOf` |
| ReportsPage.CircuitBarsMatchReportRows | src/pages/ReportsPage.tsx:114-130 | the page's circuit bars are the report's circuit rows without the count |
| ReportsPage.ShortNamesArePrefixes | src/pages/ReportsPage.tsx:97 | each short month name is the first three letters of the full name |
| ReportsPage.MonthlyDataOf | src/pages/ReportsPage.tsx:93-111 | exactly three bars, the o-th for the quarter's o-th month |
| ReportsPage.MonthBarsMatchReport | src/pages/ReportsPage.tsx:93-111 | each bar has the receipts and payments of the report's month row and its short name |
| ReportsPage.YearOptionsAreExact | src/pages/ReportsPage.tsx:133-139 | strictly descending, and a year is offered exactly when it is the current year or some transaction's year |
| ReportsPage.CsvField | src/pages/ReportsPage.tsx:154 | a field is the value between two quotes, with nothing escaped |
| ReportsPage.CsvCircuitName | src/pages/ReportsPage.tsx:150 | the name of the first circuit whose uid is the transaction's circuit id; empty when there is no id or no such circuit |
| ReportsPage.CsvRow | src/pages/ReportsPage.tsx:144-152 | one field per header column, seven in all |
| ReportsPage.CsvRowColumns | src/pages/ReportsPage.tsx:144-152 | the fields in header order: the date text, 'receipt' or 'payment', the category label, the description, the amount text, the circuit name (empty without a circuit), and the notes or an empty field |
| ReportsPage.CsvLineAvoids | src/pages/ReportsPage.tsx:154 | a line has no line break when its fields have none |
| ReportsPage.CsvLineFields | src/pages/ReportsPage.tsx:154 | when no field contains a comma, splitting a line on ',' gives the quoted fields back |
| ReportsPage.ExportLines | src/pages/ReportsPage.tsx:143-154 | the file has one header line and then one line per filtered transaction, in filtered order |
| EntryPage.StepIndex | src/pages/EntryPage.tsx:43-44 | each step sits at its own position in `STEPS` |
| EntryPage.GoNext | src/pages/EntryPage.tsx:93-98 | advances one step, and stays on the review step |
| EntryPage.GoBack | src/pages/EntryPage.tsx:100-107 | retreats one step, and leaves the page exactly from the type step |
| EntryPage.StepIndexInjective | src/pages/EntryPage.tsx:43-44 | distinct steps have distinct positions |
| EntryPage.BackUndoesNext | src/pages/EntryPage.tsx:93-107 | going back after going forward returns to the same step |
| EntryPage.NextUndoesBack | src/pages/EntryPage.tsx:93-107 | going forward after going back returns to the same step |
| EntryPage.StepErrors | src/pages/EntryPage.tsx:110-128 | each error key is present exactly when its check fails on its step, carrying that field's message (the item message for a merchandise amount), and no other key |
| EntryPage.StepValidIff | src/pages/EntryPage.tsx:110-128 | the category step needs a category; the details step needs a description, a positive amount and a date; the others always pass |
| EntryPage.HandleNext | src/pages/EntryPage.tsx:130-154 | advances exactly when the step validates, else stays |
| EntryPage.ReachingReview | src/pages/EntryPage.tsx:110-154 | reaching review from the category step means every required field was filled |
| EntryPage.AddItem | src/pages/EntryPage.tsx:157-173 | refused exactly for an unknown product or a quantity or price that is not positive; otherwise appends one item with total = qty × price |
| EntryPage.AddItemSum | src/pages/EntryPage.tsx:157-183 | after adding, the amount (the sum of item totals) grows by the new item's total and is positive |
| EntryPage.RemoveItem | src/pages/EntryPage.tsx:185-187 | removes exactly index i and keeps the order of the rest |
| EntryPage.RemoveItemSum | src/pages/EntryPage.tsx:185-190 | after removing, the sum drops by the item's total, and the amount is empty exactly when no item is left |
| EntryPage.WellFormedTotalPositive | src/pages/EntryPage.tsx:176-189 | well-formed items have a positive sum exactly when there is at least one |
| EntryPage.SubmittedTransaction | src/pages/EntryPage.tsx:201-212 | the record holds the draft's fields, quarter and year from its date, empty circuit and notes as absent, and items only when there are some |
| EntryPage.MovementTypeFor | src/pages/EntryPage.tsx:218 | a receipt gives a sale, a payment a purchase |
| EntryPage.ItemMovement | src/pages/EntryPage.tsx:215-227 | the item's product, quantity and unit price, with the draft's circuit and date |
| EntryPage.RecordedMovements | src/pages/EntryPage.tsx:215-227 | each movement stamped with its own fresh uid |
| EntryPage.Submit | src/pages/EntryPage.tsx:193-242 | one transaction is appended and then one movement per item, and the products take the movements in item order |
| EntryPage.RecordMovements | src/pages/EntryPage.tsx:215-227 | the loop records each movement in turn: all are appended with their uids, and the products take them in order |
| EntryPage.SubmitMovementsFollowItems | src/pages/EntryPage.tsx:215-227 | one movement per item, same product, quantity and price, a sale exactly for a receipt |
| EntryPage.UncheckedSaleIsClamped | src/pages/EntryPage.tsx:215-227 | the wizard does not guard a sale, so selling 5 from stock 0 clamps the stock at 0 |
| EntryPage.EntryForm.constructor | src/pages/EntryPage.tsx:55-84 | the wizard opens on the type step with an empty draft dated today, of the preset type or receipt |
| EntryPage.EntryForm.ChooseType | src/pages/EntryPage.tsx:305 | choosing a type sets it and clears the category |
| EntryPage.EntryForm.ChooseCategory | src/pages/EntryPage.tsx:391 | sets the category only |
| EntryPage.EntryForm.Next | src/pages/EntryPage.tsx:130-154 | the step becomes `HandleNext` and the errors `StepErrors`; nothing else changes |
| EntryPage.EntryForm.Back | src/pages/EntryPage.tsx:100-107 | leaves the page exactly from the type step, else retreats one step |
| EntryPage.EntryForm.SelectProduct | src/pages/EntryPage.tsx:631-640 | selects the product and, when it exists, fills in its selling price for a receipt or cost price for a payment |
| EntryPage.EntryForm.AddItemToList | src/pages/EntryPage.tsx:157-183 | a refused item changes nothing; an accepted one is appended, the amount is the new sum, and the item form is reset and closed |
| EntryPage.EntryForm.RemoveItemAt | src/pages/EntryPage.tsx:185-190 | removes the item and sets the amount to the remaining sum, empty when it is 0 |
| InventoryPage.ProductDataOf | src/pages/InventoryPage.tsx:117-125 | nothing for a blank name; otherwise the trimmed name, prices defaulting to 0 and reorder level defaulting to 5 |
| InventoryPage.NewProduct | src/pages/InventoryPage.tsx:131-134 | a newly added product starts with stock 0 and the form's data |
| InventoryPage.PatchOf | src/pages/InventoryPage.tsx:127-128 | an edit patches name, prices, category and reorder level, never the stock |
| InventoryPage.EditFormRoundTrip | src/pages/InventoryPage.tsx:97-128 | opening a product for edit and saving it unchanged gives back the same product, with only updatedAt refreshed |
| InventoryPage.EditFormData | src/pages/InventoryPage.tsx:97-125 | the edit form of a product with a trimmed, non-empty name and a non-zero reorder level yields that product's own data |
| InventoryPage.OwnDataMerge | src/pages/InventoryPage.tsx:127-128 | patching a product with its own data changes only updatedAt |
| InventoryPage.ReorderDefault | src/pages/InventoryPage.tsx:124 | a reorder level that parses to 0 or to nothing becomes 5 |
| InventoryPage.SaveProduct | src/pages/InventoryPage.tsx:116-140 | a blank name changes nothing; otherwise the selected product is updated, or a new one is added |
| InventoryPage.MovementFormFor | src/pages/InventoryPage.tsx:107-114 | the movement form opens blank, or on the product with its cost price |
| InventoryPage.FormMovement | src/pages/InventoryPage.tsx:156-165 | the movement holds the form's product, type, parsed quantity and price, today's date and quarter, and notes only when non-empty |
| InventoryPage.RecordMovement | src/pages/InventoryPage.tsx:142-178 | a refused form changes nothing; otherwise the store records the movement |
| InventoryPage.AcceptedMovementIsExact | src/pages/InventoryPage.tsx:151-165 | an accepted movement on a product with non-negative stock is applied without clamping |
| InventoryPage.OverSaleRefused | src/pages/InventoryPage.tsx:151-154 | a sale above the product's current stock is refused |
| InventoryPage.PurchasesUnlimited | src/pages/InventoryPage.tsx:143-154 | a purchase or adjustment with a chosen product and a positive quantity is never refused |
| InventoryPage.TotalsNonNegative | src/pages/InventoryPage.tsx:181-184 | with no negative stock or cost, stock value and total units are not negative |
| InventoryPage.MovementChangesUnits | src/pages/InventoryPage.tsx:229 | a movement changes total units only at its product, whose stock is replaced by the clamped new stock; with no such product the total is unchanged |
| InventoryPage.LowMarksAgree | src/pages/InventoryPage.tsx:271 | the store's low-stock rule is the page's low mark plus stock >= 0 |
| InventoryPage.StockBarWidth | src/pages/InventoryPage.tsx:336-339 | the bar never exceeds 100, is not negative for non-negative stock, is stock / max(1, 3 × reorder level) × 100 below that mark, and is full from the mark up |
| InventoryPage.StockBarFullIff | src/pages/InventoryPage.tsx:336-339 | the bar is full exactly when stock reaches max(1, 3 × reorder level) |
| TransactionModal.FormOf | src/components/ui/TransactionDetailModal.tsx:58-69 | the form holds every field of the transaction, with absent circuit and notes as empty text |
| TransactionModal.SavePatch | src/components/ui/TransactionDetailModal.tsx:81-102 | a patch exactly when the description, amount and date pass the check; it writes the form's date, type, category and amount, the trimmed description, the circuit and trimmed notes (absent when empty), and the quarter and year of the date, and leaves subcategory, event and items alone |
| TransactionModal.SavedRecordIsNormalised | src/components/ui/TransactionDetailModal.tsx:83-102 | the saved record takes the form's date, type, category and amount, the trimmed description, the circuit or absent when empty, and the trimmed notes or absent when empty; quarter and year follow the date; the fields the form does not show are kept |
| TransactionModal.EmptyCategoryIsSaved | src/components/ui/TransactionDetailModal.tsx:84 | after a type toggle clears the category, a save goes through and stores an empty category |
| TransactionModal.NotesRoundTrip | src/components/ui/TransactionDetailModal.tsx:98 | trimmed, non-empty notes survive the form and the save unchanged |
| TransactionModal.UneditedPatch | src/components/ui/TransactionDetailModal.tsx:58-102 | the form of a normalised record passes the check and patches every edited field with the record's own value |
| TransactionModal.UneditedSaveKeepsRecord | src/components/ui/TransactionDetailModal.tsx:58-102 | saving an unedited, normalised record passes the check and changes only updatedAt |
| TransactionModal.Modal.constructor | src/components/ui/TransactionDetailModal.tsx:58-69 | opens in view mode with the form loaded from the transaction |
| TransactionModal.Modal.Load | src/components/ui/TransactionDetailModal.tsx:58-69 | a new transaction resets the mode to view and reloads every form field |
| TransactionModal.Modal.StartEdit | src/components/ui/TransactionDetailModal.tsx:283 | switches to edit mode; nothing else changes |
| TransactionModal.Modal.AskDelete | src/components/ui/TransactionDetailModal.tsx:291 | switches to delete-confirm mode; nothing else changes |
| TransactionModal.Modal.ToggleType | src/components/ui/TransactionDetailModal.tsx:311-314 | sets the type and clears the category |
| TransactionModal.Modal.Cancel | src/components/ui/TransactionDetailModal.tsx:405-417 | restores every form field from the transaction and returns to view |
| TransactionModal.Modal.BackToView | src/components/ui/TransactionDetailModal.tsx:470 | returns to view mode, keeping the form |
| TransactionModal.Modal.Save | src/components/ui/TransactionDetailModal.tsx:79-110 | a failed check changes nothing; a passed one merges `SavePatch` of the form into the record with its uid (whose written fields `SavedRecordIsNormalised` states) and returns to view |
| TransactionModal.Modal.ConfirmDelete | src/components/ui/TransactionDetailModal.tsx:112-123 | deletes the transaction by uid |
| CircuitsPage.ParseSubBranches | src/pages/CircuitsPage.tsx:71-74 | every parsed name is non-empty, has no surrounding whitespace and contains no comma |
| CircuitsPage.ParseJoinRoundTrip | src/pages/CircuitsPage.tsx:63-74 | joining clean names with ', ' and parsing again gives the same list |
| CircuitsPage.DataOf | src/pages/CircuitsPage.tsx:71-89 | the trimmed name and country, the sub-branches parsed from the text, and the trimmed contact or absent when blank |
| CircuitsPage.NewCircuit | src/pages/CircuitsPage.tsx:85-91 | a new circuit is active and carries the form's data |
| CircuitsPage.PatchOf | src/pages/CircuitsPage.tsx:77-82 | an edit writes the name, country, sub-branches and contact, and never touches the active flag |
| CircuitsPage.SavedDataIsClean | src/pages/CircuitsPage.tsx:69-89 | saved names, country, sub-branches and contact are trimmed and non-empty |
| CircuitsPage.ContactRoundTrip | src/pages/CircuitsPage.tsx:64-81 | a clean contact survives the form and the save unchanged |
| CircuitsPage.CleanFormData | src/pages/CircuitsPage.tsx:59-89 | opening a clean circuit for edit gives a form that passes the check and yields its own data |
| CircuitsPage.UneditedSaveKeepsCircuit | src/pages/CircuitsPage.tsx:59-83 | saving a clean circuit unedited leaves it unchanged |
| CircuitsPage.SaveCircuit | src/pages/CircuitsPage.tsx:68-97 | a blank name or country changes nothing; otherwise the edited circuit is patched with the form's trimmed and parsed data, or a new active one carrying that data is added |
| CircuitsPage.CircuitStatsPartition | src/pages/CircuitsPage.tsx:100-114 | balance = receipts - payments, which together sum over the circuit's transactions, and the count is their number |

## Left out

- Dexie, IndexedDB and asynchrony. Each table is an in-memory sequence and every
  `await` is a plain step. Reloading a store from its table
  (`orderBy('date').reverse()`, `loadProducts` and the like) is not modelled.
  The in-memory copy is the table in insertion order.
- Floating-point arithmetic. Money is integer cents, and ratios are exact reals
  stated through `ReportData.Quotient`.
- Number and date formatting. This covers `toFixed`, `toLocaleString`,
  `formatCurrency`, `fmtAmt` and `formatDate`.
  - `ReportData.FmtPct` takes the one-decimal rendering as a parameter.
  - The CSV row takes the date and amount texts as parameters.
  - `yearOptions` is modelled as numbers, without its `String` rendering.
- Date parsing and time zones (`new Date(...)`, `getMonth`, `toISOString`). A
  date is already split into year, month and day, and "today" is a parameter.
- Random uids and clock timestamps (`generateId`, `now`). They are parameters.
  The historical seed takes its records as values; their literal contents are
  data, not logic.
- JSON, file input, Blob download, the backup file name and localStorage. The
  backup is an abstract envelope, and the mascot store's persistence is its
  `Saved()` pair of flags.
- Rendering, animation, charts, routing, the PDF and Word report renderers,
  the install prompt, and UI-only flags. The UI-only flags are `saving`,
  `isSubmitting`, `showSuccess`, modal visibility outside the entry wizard, and
  the speech calls made by pages.
- Case mapping and whitespace trimming. They are modelled for ASCII letters and
  the common whitespace characters only, not the full Unicode tables.
- The category option's `label` field is called `text` in the model.
- EntryPage.Submit: requires a date and a numeric amount. The wizard only
  reaches submission through the validated details step, and a number input
  never holds text that fails to parse.
- ReportData.Median: its own contract states only the empty case. The odd and
  even cases are `MedianOddRank` and `MedianEvenRank`.
- InventoryPage.SaveProduct: the form reset and modal close after a save are
  not modelled. The same holds for InventoryPage.RecordMovement and
  CircuitsPage.SaveCircuit.

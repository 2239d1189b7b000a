# FinanceMaster data core, in Dafny

FinanceMaster is a single-page personal finance tracker. It keeps one store,
`data`. The store holds six ordered lists:

- month records, each with seven fixed bills and four income sources;
- loans;
- trips;
- vehicle expenses;
- savings transactions;
- categorized expenses.

Every handler that edits data (add, edit, delete, import, restore and clear)
replaces this store with a new one. Navigation, the theme toggle and the
exports only read it. The dashboard, the two bar charts and the PDF report
are folds over it.

This project models that core:

- **`Types`**: the record shapes. Amounts are whole numbers of cents. Identifiers and month labels are opaque strings compared by equality.
- **`SeqOps`**: the list idioms the handlers use, with their laws:
  - `reduce` is `SumOf`;
  - `filter` by key is `Matching` and `Without`;
  - `map` with an id test is `UpdateWhere`;
  - the insertion order of `Object.keys` is `FirstSeen`.
- **`Utils`**: the helpers of `utils.ts`:
  - the twelve month labels;
  - the null-safe totals of a month's bills and income;
  - `getNextMonthSalary`.
- **`Stats`**: the dashboard figures, which are:
  - the vehicle cost per type and category (a `forEach` loop, modelled as a method with loop invariants);
  - the paid and remaining loan amounts;
  - the savings balance and earnings;
  - the travel total;
  - the categorized-expense total.
- **`Charts`**:
  - the monthly series (`chartData`, and the same rows in the PDF report's `monthlyBody`);
  - the category bar chart (a `forEach` into an object, then `Object.keys`, modelled as a method whose loop keeps a map and the key order);
  - the colour of each bar.
- **`Store`**: a class holding the six lists, with one method per handler that changes them. The handlers are:
  - add a record of each kind;
  - rewrite a field of the records carrying an id;
  - remove the records carrying an id;
  - append imported months;
  - restore a backup;
  - clear everything.

  Beside the class, lemmas state what each handler does to the figures and charts.

The values the application draws from the environment become parameters: the
identifier (`Math.random`), the current month index and the year
(`new Date()`), the rows read from a spreadsheet, the parsed backup and the
answer to the clear-all confirmation (`window.confirm`).

Categorized expenses are tied to months by label only, with no year. So
`ChartConservation` (the chart's expenses add up to the fixed bills plus every
categorized expense) needs the month labels to be distinct and every expense
to be dated to one of them. `RepeatedLabelCountsTwice` shows a case where two
records labelled "Janeiro" both count the same expense.

## Model

| member | source | states |
|---|---|---|
| `Utils.MonthsBrDistinct` | utils.ts:9-12 | There are twelve month labels, pairwise distinct. |
| `Utils.CalculateTotalExpenses` | utils.ts:14-23 | A missing expense object totals 0. With non-negative fields, the total is non-negative and at least each bill, where a missing bill counts as 0. |
| `Utils.CalculateTotalIncome` | utils.ts:25-31 | A missing income object totals 0. With non-negative fields, the total is non-negative and at least each income source. |
| `Utils.AbsentFieldsTotalZero` | utils.ts:15-30 | An object whose fields are all missing totals 0, like one whose fields are all 0. |
| `Utils.TotalsOfCompleteRecords` | utils.ts:16-30 | On a complete record, the totals are the plain sums of the seven bills and of the four income sources. |
| `Utils.IndexIn` | utils.ts:34 | `indexOf` gives the first position holding the label, and -1 exactly when the label is absent. |
| `Utils.MonthIndex` | utils.ts:34 | The index is in -1..11. It points at the label, and is -1 exactly for a label outside the twelve. |
| `Utils.MonthIndexOfLabel` | utils.ts:34 | Looking up the i-th label gives back i. |
| `Utils.SuccessorIndex` | utils.ts:37 | `(i + 1) % 12` stays in 0..11. It wraps 11 to 0 and otherwise adds one. |
| `Utils.NextMonthName` | utils.ts:34-38 | There is a next label exactly when the name is one of the twelve, and that next label is one of the twelve. |
| `Utils.NextMonthNameWraps` | utils.ts:37-38 | Each month is followed by the next one, and "Dezembro" is followed by "Janeiro". |
| `Utils.NextMonthNameInjective` | utils.ts:37-38 | Two labels with the same successor are the same label. |
| `Utils.NextMonthNameOnto` | utils.ts:37-38 | Every label is the successor of some label. |
| `Utils.FindMonth` | utils.ts:40 | `find` returns nothing exactly when no record carries the label. Otherwise it returns the first record that does. |
| `Utils.GetNextMonthSalary` | utils.ts:33-42 | The result is 0 for a label outside the twelve, and 0 when no record carries the next label. Otherwise it is the salary of the first record carrying the next label. |
| `Utils.DecemberSalaryFromJanuary` | utils.ts:37-41 | After "Dezembro", the salary comes from the first "Janeiro" record, or is 0 when there is none. |
| `Stats.VehicleBreakdown` | App.tsx:163-171 | Each of the four buckets (car or motorcycle, fuel or maintenance) holds the sum of the expenses falling into it. The four together hold the sum of every vehicle expense. |
| `Stats.BucketSumStep` | App.tsx:167-170 | One step of the loop adds the expense's value to its own bucket and to no other. |
| `Stats.BucketsPartition` | App.tsx:167-170 | The four bucket sums add up to the sum of all vehicle expenses. |
| `Stats.BucketOfFallsThrough` | App.tsx:168-169 | Any type other than CAR counts as motorcycle. Any category other than FUEL counts as maintenance. |
| `Stats.LoanPositionConservation` | App.tsx:173-176 | Paid plus remaining equals the full installment schedule, installments times installment value, summed over the loans. |
| `Stats.LoanPositionIgnoresTotalAndInterest` | App.tsx:173-176 | Changing the loans' descriptions, total values or interest leaves paid and remaining unchanged. Only the installment counts and the installment value matter. |
| `Stats.SavingsByKind` | App.tsx:178-184 | The balance is deposits plus yields minus withdrawals. The earnings are the yields. |
| `Stats.SavingsOrderIndependent` | App.tsx:178-184 | Reordering the transactions does not change the balance or the earnings. |
| `Stats.TravelTotalBounds` | App.tsx:186 | With non-negative costs, the travel total is non-negative and at least each trip's total. |
| `Stats.ComputeStats` | App.tsx:162-190 | Each figure is its fold: the four vehicle buckets (each the sum of the expenses falling into it), loan position, savings position, travel total and categorized total. The vehicle buckets add up to all vehicle expenses, and paid plus remaining is the schedule. An empty store gives all zeros. |
| `Charts.ChartData` | App.tsx:380-393 | There is one row per month record, in order, and no rows without months. |
| `Charts.ChartDataRow` | App.tsx:381-391 | A row carries the month's label and the sum of its four incomes. Its expenses are the seven bills plus the categorized expenses dated to the same label, and its balance is income minus expenses. |
| `Charts.ChartDataAppend` | App.tsx:381 | Appending month records appends their rows and leaves the earlier rows as they were. |
| `Charts.ChartDataAfterCategorized` | App.tsx:383 | A new categorized expense raises the expenses and lowers the balance of exactly the rows with its label, by its value. Labels and incomes do not change. |
| `Charts.ChartExpensesSplit` | App.tsx:382-384 | The series' expenses add up to all fixed bills plus, for each month label, the categorized expenses carrying it. |
| `Charts.ChartConservation` | App.tsx:380-393 | Given distinct month labels and every expense dated to one of them, the series' expenses are the fixed bills plus the categorized total, and its balances are income minus both. |
| `Charts.ChartBalanceSum` | App.tsx:390 | The balances add up to total income minus the series' total expenses. |
| `Charts.JanuaryScenario` | App.tsx:380-393 | A "Janeiro" with bills 100 + 50 and a salary of 1000 gives the row (Janeiro, 150, 1000, 850). |
| `Charts.RepeatedLabelCountsTwice` | App.tsx:383 | With two "Janeiro" records and one expense of 100, the series' expenses are 200 while the categorized total is 100. |
| `Charts.BlankMonthPoint` | App.tsx:382-390 | A month with no bills and no income shows its categorized expenses c as the row (label, c, 0, -c). |
| `Charts.CategorySeriesSum` | App.tsx:400 | The bars' values add up, key by key, to the expenses carrying each listed category. |
| `Charts.CategoryChartData` | App.tsx:395-401 | The bars are the categories in order of first appearance, each with the sum of its expenses. Every category that occurs has a bar, every bar names a category that occurs, no category has two, and the bars add up to the categorized total. No expenses give no bars. |
| `Charts.TotalsByCategory` | App.tsx:397-399 | The loop leaves `totals` holding each category's sum, and the keys in the order they were first set. |
| `Charts.CategoryBars` | App.tsx:395-401 | The series in first-seen order covers every category that occurs, names each once, and adds up to the categorized total. |
| `Charts.CategoryBarsOccur` | App.tsx:400 | Every bar of the series names a category that some expense carries. |
| `Charts.BarsOfTotals` | App.tsx:400 | Every listed key has an entry in `totals`. Mapping the keys to `{ name, value: totals[name] }` gives the per-category sums. |
| `Charts.CategoryTotalsSnoc` | App.tsx:398 | One step adds the value to the category's entry, starting from 0 when the entry is missing. |
| `Charts.TotalsLoopStep` | App.tsx:397-399 | One turn of the loop updates the map that way. It appends the category to the key order exactly when the category was not yet a key. |
| `Charts.CategoryTotalsKeys` | App.tsx:396-400 | A category is a key of `totals` exactly when `Object.keys` (first-seen order) lists it. |
| `Charts.CategoryTotalsValues` | App.tsx:397-399 | Each category's entry is the sum of its expenses, and a category without an entry has none. |
| `Charts.OtherCategoriesUnchanged` | App.tsx:398 | An expense leaves the sums of the other categories unchanged. |
| `Charts.CategoryTotalsPartition` | App.tsx:395-401 | The per-category sums add up to the categorized total. |
| `Charts.CategoryColor` | App.tsx:512 | A name in the palette gets its palette colour. The fallback colour is used exactly for names outside the palette, so never for an offered category. |
| `Charts.CategoryColorsDistinct` | App.tsx:72-82 | Two different offered categories get different colours. |
| `Charts.CategoryPalette` | App.tsx:60-82 | The palette has a colour for exactly the nine offered categories. |
| `SeqOps.Matching` | App.tsx:237 | Every element of the result carries the key, and every element of the input carrying the key is in the result. |
| `SeqOps.MatchingCount` | App.tsx:237 | The result is drawn from the input: each element carrying the key occurs as often as in the input, and no other element occurs. |
| `SeqOps.Without` | App.tsx:583 | Every element of the result has another id, and every element of the input with another id is in the result. |
| `SeqOps.WithoutCount` | App.tsx:583 | The result is drawn from the input: each element with another id occurs as often as in the input, and no element carrying the id remains. |
| `SeqOps.FirstSeen` | App.tsx:400 | `Object.keys` lists each key once and lists every key that was set. |
| `SeqOps.FirstSeenOccurs` | App.tsx:400 | Every key listed is the key of some element, so no key is invented. |
| `SeqOps.FirstSeenSnoc` | App.tsx:398 | Setting a key that is already present keeps the order. A new key goes last. |
| `SeqOps.FirstSeenPrefix` | App.tsx:397-400 | The keys met in a prefix of the expenses come first, in the same order. |
| `SeqOps.SplitByKey` | App.tsx:843 | A delete splits a list, and its sum, into what remains and what was removed. |
| `SeqOps.WithoutAbsent` | App.tsx:768 | Deleting an id no record carries changes nothing. |
| `SeqOps.WithoutIdempotent` | App.tsx:673 | Deleting an id twice is deleting it once. |
| `SeqOps.UpdateWhereFrame` | App.tsx:549 | A field edit that keeps the id leaves the records with other ids as they were, and rewrites the records carrying the id in place. |
| `SeqOps.UpdateWhereMatching` | App.tsx:744 | An edit that keeps some other key commutes with filtering by that key. |
| `SeqOps.UpdateWhereAbsent` | App.tsx:559 | Editing an id no record carries changes nothing. |
| `SeqOps.UpdateWhereShift` | App.tsx:691 | If an edit moves each record's term by d, the sum moves by the d of the records carrying the id. |
| `SeqOps.SumOfPermutation` | App.tsx:179-183 | A `reduce` of sums depends only on the multiset of elements. |
| `Store.NextMonthLabel` | App.tsx:351-353 | The new label is always one of the twelve. With no months it is the current month. Otherwise it is the successor of the last label, and "Janeiro" when the last label is not one of the twelve. |
| `Store.AddMonthRows` | App.tsx:350-364 | Adding a month keeps every earlier row of the series. It adds the row (label, c, 0, -c), where c is the categorized expenses already dated to that label. |
| `Store.NewMonthBlank` | App.tsx:355-361 | A new month has all bills and all income at 0, and carries the label it was given. |
| `Store.NewCategorizedNeutral` | App.tsx:366-378 | A new categorized expense is worth 0. The categorized total and every row of the series stay the same. |
| `Store.NewLoanNeutral` | App.tsx:649 | A new loan leaves paid, remaining and the scheduled total unchanged. |
| `Store.NewTripNeutral` | App.tsx:669 | A new trip leaves the travel total unchanged. |
| `Store.NewVehicleExpenseNeutral` | App.tsx:704-707 | A new vehicle expense leaves every bucket unchanged. |
| `Store.NewSavingsNeutral` | App.tsx:786-792 | A new savings transaction leaves the balance and the earnings unchanged. |
| `Store.SetExpense` | App.tsx:874 | Setting one bill changes that bill to the new value and no other bill. |
| `Store.SetIncome` | App.tsx:892 | Setting one income source changes that source to the new value and no other. |
| `Store.SetExpenseTotal` | App.tsx:874 | Setting a bill moves the month's fixed total by the new value minus the old one. |
| `Store.SetIncomeTotal` | App.tsx:892 | Setting an income source moves the month's income by the new value minus the old one. |
| `Store.MonthExpenseEditRows` | App.tsx:874 | A bill edit moves the expenses and balance of exactly the rows of the edited id, by the difference. Labels and incomes do not move. |
| `Store.MonthIncomeEditRows` | App.tsx:892 | An income edit moves the income and balance of exactly the rows of the edited id, by the difference. Labels and expenses do not move. |
| `Store.CategorizedEditTotal` | App.tsx:549-578 | Category, month and description edits leave the categorized total unchanged. A value edit replaces the values of the records carrying the id by the new value. |
| `Store.LoanEditPosition` | App.tsx:654-656 | Description and total-value edits leave paid and remaining unchanged. |
| `Store.TripCostEditTotal` | App.tsx:691 | Setting one cost of a trip moves its total by the new cost minus the old one. |
| `Store.TripEditTotal` | App.tsx:675-691 | Destination and month edits leave the travel total unchanged. A cost edit replaces that cost of each trip carrying the id by the new one. |
| `Store.VehicleEditTotals` | App.tsx:735-763 | Only a value edit moves the grand total, and it replaces the values of the records carrying the id. Month and description edits leave every bucket unchanged. |
| `Store.SavingsEditPosition` | App.tsx:819-829 | Month and description edits leave the balance and the earnings unchanged. |
| `Store.DeleteSplitsTotals` | App.tsx:583 | A delete splits the categorized, travel and vehicle totals into what remains and what was removed. |
| `Store.DeleteSplitsPositions` | App.tsx:653 | A delete splits the loan position and the savings position, component by component, into what remains and what was removed. |
| `Store.Store.constructor` | App.tsx:129-136 | The store starts with six empty lists. |
| `Store.Store.AddMonth` | App.tsx:350-364 | The months gain one blank record with the next label at the end. Nothing else changes. |
| `Store.Store.AddCategorizedExpense` | App.tsx:366-378 | The categorized expenses gain one record: the first category, value 0, "Novo gasto", dated to the last month's label or, failing that, to the current month. |
| `Store.Store.AddLoan` | App.tsx:649 | The loans gain one record: "Novo Empréstimo", one installment of 0. |
| `Store.Store.AddTrip` | App.tsx:669 | The trips gain one record: "Nova Viagem" in the current month, all costs 0. |
| `Store.Store.AddVehicleExpense` | App.tsx:704-707 | The vehicle expenses gain one fuel expense of 0 for the chosen type. |
| `Store.Store.AddSavings` | App.tsx:786-792 | The savings gain one transaction of 0 of the chosen kind, with that kind's description. |
| `Store.Store.UpdateMonthExpense` | App.tsx:874 | Every month carrying the id has the bill set. Nothing else changes. |
| `Store.Store.UpdateMonthIncome` | App.tsx:892 | Every month carrying the id has the income source set. Nothing else changes. |
| `Store.Store.UpdateCategorized` | App.tsx:549-578 | Every categorized expense carrying the id has the edited field set. Nothing else changes. |
| `Store.Store.UpdateLoan` | App.tsx:654-659 | Every loan carrying the id has the edited field set. Nothing else changes. |
| `Store.Store.UpdateTrip` | App.tsx:675-691 | Every trip carrying the id has the edited field set. Nothing else changes. |
| `Store.Store.UpdateVehicleExpense` | App.tsx:735-763 | Every vehicle expense carrying the id has the edited field set. Nothing else changes. |
| `Store.Store.UpdateSavings` | App.tsx:819-838 | Every savings transaction carrying the id has the edited field set. Nothing else changes. |
| `Store.Store.DeleteCategorized` | App.tsx:583 | The categorized expenses lose exactly the records carrying the id. Nothing else changes. |
| `Store.Store.DeleteLoan` | App.tsx:653 | The loans lose exactly the records carrying the id. Nothing else changes. |
| `Store.Store.DeleteTrip` | App.tsx:673 | The trips lose exactly the records carrying the id. Nothing else changes. |
| `Store.Store.DeleteVehicleExpense` | App.tsx:768 | The vehicle expenses lose exactly the records carrying the id. Nothing else changes. |
| `Store.Store.DeleteSavings` | App.tsx:843 | The savings lose exactly the records carrying the id. Nothing else changes. |
| `Store.Store.ImportMonths` | App.tsx:327 | The imported months are appended after the existing ones. Nothing else changes. |
| `Store.Store.RestoreBackup` | App.tsx:339-344 | A backup that parses replaces the whole store. One that does not parse leaves the store unchanged. |
| `Store.Store.ClearAll` | App.tsx:445 | When the user confirms, the store becomes six empty lists. When they decline, it is unchanged. |

## Left out

- Rendering: the JSX, tabs, modals, dark mode and the selected-month state (App.tsx:125-127, 138-141). They hold no data the figures depend on.
- Persistence in `localStorage` (App.tsx:143-155). It saves and reloads the store as is.
- The PDF layout, `formatCurrency` and the JSON backup download. The model keeps only the numbers these print (`monthlyBody` has the same rows as `chartData`).
- Parsing:
  - reading the spreadsheet and the mapping of its rows to months (App.tsx:297-325);
  - `JSON.parse` (App.tsx:340).

  The parsed months and the parsed store are parameters. A backup that parses but does not have the store's shape is not modelled.
- Number input: `parseFloat`, `parseInt` and `Number(...) || 0` on what the user types. Amounts arrive as integers of cents, so IEEE rounding, `NaN` and fractional cents are not modelled.
- `Math.random` and `new Date()`. Identifiers, the current month index (0..11) and the year are parameters.
- Two handlers read the store rendered last, not the `prev` that `setData` passes: `addMonth` picks the label from it, and `addCategorizedExpense` picks the month. The model reads and writes one store, as when no other update is pending.
- `Object.keys` lists integer-like keys first, in numeric order. The model keeps insertion order for every key; the category labels the editor offers are not integer-like.
- Lookups such as `CATEGORY_COLORS["constructor"]`, which fall through to the prototype chain, are not modelled.
- `getNextMonthSalary` is modelled but nothing in App.tsx calls it. No month delete exists in the source, and the type of a vehicle expense or of a savings transaction is not editable, so neither is modelled.
- `Store.LoanEditPosition`: installment-count, paid-count and installment-value edits are not stated. Their effect on paid and remaining is a product of two edited fields.
- `Store.SavingsEditPosition`: value edits are not stated. Their effect depends on the sign of each edited transaction's kind.

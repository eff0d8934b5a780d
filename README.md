# AgroGest (GestorPro) in Dafny

AgroGest is a farm management web application written in React and TypeScript,
with three Node scripts that work on its JSON backups. This project models its
core and proves properties of the model with the Dafny verifier.

What is modelled:

- **The store** (`src/contexts/AppContext.tsx`): the global lists of products,
  movements, transactions, suppliers, clients, collaborators, tasks,
  properties, field applications and activities. It also models the stock
  movement that recomputes a product's stock and status, the undo of a
  movement, the activity log and the unit conversions (`units.dfy`).
  `AppContext.AppStore` is a class whose methods change its lists in place.
  Every method's contract gives the new contents as a function of the old ones.
- **The pages**: one class per page or stateful component, holding the
  page's own `useState` fields and a reference to the store. The pages are
  products, inventory, finance, cash flow, the reports, properties, field
  applications, collaborators, clients, suppliers, tasks, the dashboard, the
  audit forms, the quick adjust popover, the advanced filters, the product
  history drawer, the confirm modal, the image editor and the property
  attachments. Every handler is a method. Its `ensures` ties the new page and
  store state to a pure transition function. Lemmas about those functions
  state what the page promises: filters, totals, sort orders, validation
  guards and round trips between a form and the record it saves.
- **The helpers**:
  - the money masks and parsers of `src/utils/format.ts`;
  - the receipt text parser of `src/utils/ocr-parser.ts`;
  - the tactical filter hook of `src/hooks/useTacticalFilter.ts`.
- **The scripts**:
  - `audit_stock.cjs` sorts products into four stock buckets;
  - `export_excel.cjs` writes the product list as semicolon-separated text;
  - `migrate_finance.cjs` cleans the transactions of a backup.

JavaScript numbers are modelled as exact `real`s. NaN is explicit where the
code can produce it (`Js.Num`). `parseFloat`, `parseInt`, `Number(...)`,
`Math.round` and `toFixed(2)` are written out over strings in `js.dfy` and
`format.dfy`. Strings are sequences of Unicode scalar values (`seq<char>`).
Sorting is a stable insertion sort, because JavaScript's `Array.prototype.sort`
is stable. Clocks, random ids, date parsing, file URLs and cloud storage
calls are parameters of the operations that use them.

## Model

| member | source | states |
|---|---|---|
| TasksPage.ShownSpec | src/pages/tasks/TasksPage.tsx:24-32 | the list keeps stored order; a task shows iff it matches the case-folded search in text or assignee and the filter ('all', 'pending' = open, 'done' = finished, otherwise that priority); an empty search with 'all' shows every task |
| TasksPage.CountsSpec | src/pages/tasks/TasksPage.tsx:99-120 | 'Pendentes' + 'Concluídas' = 'Total', and 'Urgentes' (high and open) <= 'Pendentes' |
| TasksPage.SubmitCreates | src/pages/tasks/TasksPage.tsx:39-41 | a new task goes in front with the clock's id, not done, carrying the form; the rest of the list is kept and only tasks and the log change |
| TasksPage.SubmitEdits | src/pages/tasks/TasksPage.tsx:36-38 | an edit keeps length, ids and completion; only the task with the edited id takes the form's fields |
| TasksPage.EditRoundTrip | src/pages/tasks/TasksPage.tsx:37 | saving the prefilled edit form of a stored task (unique ids) leaves the task list unchanged |
| TasksPage.ToggleSpec | src/pages/tasks/TasksPage.tsx:48-54 | only the task with the id flips its completion; an unknown id changes nothing |
| TasksPage.ToggleTwice | src/pages/tasks/TasksPage.tsx:48-54 | toggling twice restores the task list |
| TasksPage.DeleteSpec | src/pages/tasks/TasksPage.tsx:56-62 | unconfirmed or unknown id changes nothing; the result is an ordered sub-list holding exactly the tasks without the id |
| TasksPage.TasksView.constructor | src/pages/tasks/TasksPage.tsx:11-22 | empty search, filter 'all', form closed, nothing edited, blank form with priority 'medium' |
| TasksPage.TasksView.SetSearch | src/pages/tasks/TasksPage.tsx:133 | only the search term changes |
| TasksPage.TasksView.SetFilter | src/pages/tasks/TasksPage.tsx:141 | only the filter changes |
| TasksPage.TasksView.OpenNew | src/pages/tasks/TasksPage.tsx:83-87 | form opens blank, nothing edited |
| TasksPage.TasksView.OpenEdit | src/pages/tasks/TasksPage.tsx:188-191 | form opens with the task's fields, editing its id |
| TasksPage.TasksView.Close | src/pages/tasks/TasksPage.tsx:219 | only the open flag clears |
| TasksPage.TasksView.Enter | src/pages/tasks/TasksPage.tsx:229-247 | only the form changes |
| TasksPage.TasksView.SubmitForm | src/pages/tasks/TasksPage.tsx:34-46 | the store becomes Submit of the old store, form and editing id; the form closes and resets |
| TasksPage.TasksView.ToggleTask | src/pages/tasks/TasksPage.tsx:48-54 | the store becomes Toggle of the old store |
| TasksPage.TasksView.DeleteTask | src/pages/tasks/TasksPage.tsx:56-62 | the store becomes Delete of the old store |
| CashFlowPage.DaysInMonth | src/pages/finance/CashFlowPage.tsx:18 | the last day of a month is between 28 and 31 |
| CashFlowPage.YearLength | src/pages/finance/CashFlowPage.tsx:18 | the twelve month lengths add up to 365 days, or 366 in a Gregorian leap year (years 0-99 read as 1900-1999) |
| CashFlowPage.DaysInMonthExamples | src/pages/finance/CashFlowPage.tsx:18 | February has 29 days in 2024, 2000 and year 4 (read as 1904), 28 in 2025, 1900, year 0 and year 100; April 30, December 31 |
| CashFlowPage.DateKeyInjective | src/pages/finance/CashFlowPage.tsx:23 | two days of one month never share a date key |
| CashFlowPage.DailyCashFlow | src/pages/finance/CashFlowPage.tsx:17-41 | one entry per day of the month, day k+1 at position k, with the transactions dated that day, their income and expense, and a running balance equal to the sum of the nets up to that day |
| CashFlowPage.FlowPrefixExtend | src/pages/finance/CashFlowPage.tsx:22-39 | pushing the next day's entry keeps the list a correct prefix of the month |
| CashFlowPage.RunningExtend | src/pages/finance/CashFlowPage.tsx:29-36 | pushing a day whose balance is the previous total plus its net keeps every balance a running sum |
| CashFlowPage.DayDate | src/pages/finance/CashFlowPage.tsx:23 | the entry at position i carries day i+1's date key |
| CashFlowPage.DayFields | src/pages/finance/CashFlowPage.tsx:23-27 | the entry at position i holds exactly the transactions of its date and their income and expense totals |
| CashFlowPage.DayMembers | src/pages/finance/CashFlowPage.tsx:25 | a transaction is listed on a day iff it is stored with that day's date |
| CashFlowPage.DatesDistinct | src/pages/finance/CashFlowPage.tsx:23 | entries keyed by consecutive days of one month have distinct dates |
| CashFlowPage.DaysDistinct | src/pages/finance/CashFlowPage.tsx:22-25 | the month's entries have distinct dates, so no transaction is counted on two days |
| CashFlowPage.NetSum | src/pages/finance/CashFlowPage.tsx:44-45 | the sum of the daily nets is total income minus total expense |
| CashFlowPage.ClosingIsNet | src/pages/finance/CashFlowPage.tsx:44-46 | the closing balance equals the month's total income minus its total expense |
| CashFlowPage.BalanceStep | src/pages/finance/CashFlowPage.tsx:20-29 | the balance opens at 0 and each day moves it by that day's income minus expense |
| CashFlowPage.Abs | src/pages/finance/CashFlowPage.tsx:128 | Math.abs is non-negative and equal to the value or its negation |
| CashFlowPage.MaxAbs | src/pages/finance/CashFlowPage.tsx:128 | the scale bounds every bar's magnitude and is reached by one of them |
| CashFlowPage.HeightBounds | src/pages/finance/CashFlowPage.tsx:129 | a bar's height is between 0 and 100 and is 100 when its magnitude is the scale |
| CashFlowPage.ChartBar | src/pages/finance/CashFlowPage.tsx:48-52 | one bar per day, labelled with the day, valued at the balance, green exactly when the balance is not negative |
| CashFlowPage.ChartHeights | src/pages/finance/CashFlowPage.tsx:127-129 | every height is a percentage and a bar of the largest non-zero magnitude is full |
| CashFlowPage.TableSpec | src/pages/finance/CashFlowPage.tsx:181-207 | the table lists the days with movements in order; the empty-period row shows exactly when it lists none; skipped days add nothing to the totals |
| CashFlowPage.CashFlowView.constructor | src/pages/finance/CashFlowPage.tsx:12-13 | the selection starts at the app's current month and year |
| CashFlowPage.CashFlowView.SelectMonth | src/pages/finance/CashFlowPage.tsx:87 | only the month changes |
| CashFlowPage.CashFlowView.SelectYear | src/pages/finance/CashFlowPage.tsx:90 | only the year changes |
| CashFlowPage.CashFlowView.Flow | src/pages/finance/CashFlowPage.tsx:43 | the daily flow of the store's transactions for the selected month |
| FinancialReportPage.NewestIsStrictOrder | src/pages/reports/FinancialReportPage.tsx:21 | the newest-first comparator is a strict order |
| FinancialReportPage.ReportSpec | src/pages/reports/FinancialReportPage.tsx:18-21 | the report holds each transaction dated in the selected month and year as often as stored, nothing else, newest first |
| FinancialReportPage.SummarySorted | src/pages/reports/FinancialReportPage.tsx:23-25 | sorting the report changes none of the totals |
| FinancialReportPage.SumOfSortedFilter | src/pages/reports/FinancialReportPage.tsx:23-24 | the sum of the amounts of one type is the same before and after sorting |
| FinancialReportPage.SumFilterIsMasked | src/pages/reports/FinancialReportPage.tsx:23-24 | summing the filtered amounts equals summing every amount with the others counted as 0 |
| FinancialReportPage.CardsSpec | src/pages/reports/FinancialReportPage.tsx:23-25 | the cards are the income, expense and balance of exactly the month's transactions, balance = income - expense |
| FinancialReportPage.MarginBounds | src/pages/reports/FinancialReportPage.tsx:114 | with non-negative amounts the margin is at most 100, exactly 100 with no expense, negative when income exists and the balance is negative, 0 without income |
| FinancialReportPage.TotalIsSum | src/pages/reports/FinancialReportPage.tsx:27-30 | the total of the per-category object is the sum of its values |
| FinancialReportPage.SortedExpensesSpec | src/pages/reports/FinancialReportPage.tsx:27-32 | the composition holds the per-category sums, in descending order of sum, adding up to the expense card |
| FinancialReportPage.NoExpensesMessage | src/pages/reports/FinancialReportPage.tsx:144 | the no-expense message shows exactly when the month has no expense |
| FinancialReportPage.ShiftedSpec | src/pages/reports/FinancialReportPage.tsx:58-70 | each arrow keeps the month in 0..11 and moves exactly one calendar month (12*year + month changes by the delta) |
| FinancialReportPage.ShiftedWraps | src/pages/reports/FinancialReportPage.tsx:61-67 | December+1 is January of the next year; January-1 is December of the previous year |
| FinancialReportPage.ShiftedRoundTrip | src/pages/reports/FinancialReportPage.tsx:58-70 | next then previous (and previous then next) gives back the same month and year |
| FinancialReportPage.FinancialReportView.constructor | src/pages/reports/FinancialReportPage.tsx:13-14 | the report starts at the app's current month and year |
| FinancialReportPage.FinancialReportView.ChangeMonth | src/pages/reports/FinancialReportPage.tsx:58-70 | the selection becomes Shifted of the old selection by the delta |
| InventoryReportPage.MenusSpec | src/pages/reports/InventoryReportPage.tsx:26-27 | the menus start with 'Todas'/'Todos' followed by each category/location in use exactly once, a missing location counted as 'Não Definido' |
| InventoryReportPage.BeforeIsStrictOrder | src/pages/reports/InventoryReportPage.tsx:50-55 | every sort choice is a strict order |
| InventoryReportPage.ShownSpec | src/pages/reports/InventoryReportPage.tsx:41-55 | the list holds each product that passes all eight stages as often as stored, nothing else, sorted by the chosen comparator |
| InventoryReportPage.ShownOrder | src/pages/reports/InventoryReportPage.tsx:50-55 | name ascending, stock descending, price descending, or by default stock x price descending |
| InventoryReportPage.DefaultFiltersKeepAll | src/pages/reports/InventoryReportPage.tsx:13-21 | with the initial or reset fields every product is listed |
| InventoryReportPage.StatusCountsAddUp | src/pages/reports/InventoryReportPage.tsx:58-61 | ok + low + critical = total when every status is one of the three |
| InventoryReportPage.HealthScoreBounds | src/pages/reports/InventoryReportPage.tsx:70 | the health score is within 0..100, 100 when all listed products are ok, 0 when none is or the list is empty |
| InventoryReportPage.ShortfallNonneg | src/pages/reports/InventoryReportPage.tsx:64-65 | with a non-negative price a product's replacement share is not negative |
| InventoryReportPage.ReplacementCostSpec | src/pages/reports/InventoryReportPage.tsx:63-68 | only products below their minimum contribute, the cost is non-negative for non-negative prices and 0 when nothing is below minimum |
| InventoryReportPage.ValueByCategorySpec | src/pages/reports/InventoryReportPage.tsx:72-76 | one entry per category in use, each the stock value of that category, all adding up to the total stock value |
| InventoryReportPage.InventoryReportView.constructor | src/pages/reports/InventoryReportPage.tsx:13-22 | the fields start at 'Todas', 'all', empty bounds, 'Todos', sort 'value', advanced panel closed |
| InventoryReportPage.InventoryReportView.SetFilters | src/pages/reports/InventoryReportPage.tsx:125 | only the filter fields change |
| InventoryReportPage.InventoryReportView.ToggleAdvanced | src/pages/reports/InventoryReportPage.tsx:130 | only the advanced-filter panel flag flips |
| InventoryReportPage.InventoryReportView.ResetFilters | src/pages/reports/InventoryReportPage.tsx:29-39 | every filter field returns to its initial value |
| CollaboratorsPage.ShownSpec | src/pages/collaborators/CollaboratorsPage.tsx:28-32 | the list keeps stored order and holds exactly the collaborators whose name or role contains the case-folded search and whose status is the filter's (any for 'all'); empty search with 'all' shows everyone |
| CollaboratorsPage.CountsAddUp | src/pages/collaborators/CollaboratorsPage.tsx:34-37 | the Ativos, Férias and Inativos counters add up to the total when every status is one of the three |
| CollaboratorsPage.SalaryOfMasked | src/pages/collaborators/CollaboratorsPage.tsx:41 | a salary typed through the mask is saved as the typed digits read as cents, the same amount the masked text parses to |
| CollaboratorsPage.MaskWholeCents | src/utils/format.ts:27-31 | masking a whole number n gives n's cents text |
| CollaboratorsPage.SalaryPrefillShrinks | src/pages/collaborators/CollaboratorsPage.tsx:207 | as written, a whole salary n prefilled by the edit button is saved back as n/100 |
| CollaboratorsPage.SalaryPrefillCounterexample | src/pages/collaborators/CollaboratorsPage.tsx:207 | a salary of 3500 is saved back as 35 |
| CollaboratorsPage.SalaryPrefillRoundTrip | src/pages/collaborators/CollaboratorsPage.tsx:207 | the corrected prefill saves back any non-negative salary of whole cents unchanged |
| CollaboratorsPage.SubmitCreates | src/pages/collaborators/CollaboratorsPage.tsx:46-48 | a new collaborator goes in front with the clock's id, the form's fields and the salary digits as cents; the rest of the list is kept |
| CollaboratorsPage.SubmitEdits | src/pages/collaborators/CollaboratorsPage.tsx:43-45 | an edit keeps length and ids and changes only the record with the edited id, to the form's values |
| CollaboratorsPage.EditAsWrittenCounterexample | src/pages/collaborators/CollaboratorsPage.tsx:207 | as written, saving the untouched edit form of a collaborator earning 3500 leaves them earning 35 |
| CollaboratorsPage.EditRoundTrip | src/pages/collaborators/CollaboratorsPage.tsx:207 | with the corrected prefill, saving an untouched edit form leaves the list unchanged (unique ids, whole-cent salary) |
| CollaboratorsPage.DeleteSpec | src/pages/collaborators/CollaboratorsPage.tsx:54-60 | a confirmed delete keeps, in order, exactly the collaborators without the id; unconfirmed or unknown ids change nothing |
| CollaboratorsPage.CollaboratorsView.constructor | src/pages/collaborators/CollaboratorsPage.tsx:11-26 | empty search, filter 'all', form closed, nothing edited, blank form with role 'Operador de Máquinas' and status 'active' |
| CollaboratorsPage.CollaboratorsView.SetSearch | src/pages/collaborators/CollaboratorsPage.tsx:94 | only the search changes |
| CollaboratorsPage.CollaboratorsView.SetFilter | src/pages/collaborators/CollaboratorsPage.tsx:72-84 | only the status filter changes |
| CollaboratorsPage.CollaboratorsView.OpenNew | src/pages/collaborators/CollaboratorsPage.tsx:96 | opens the blank form for a new collaborator |
| CollaboratorsPage.CollaboratorsView.OpenEdit | src/pages/collaborators/CollaboratorsPage.tsx:207 | opens the form on the collaborator, with the salary prefilled as written, `maskValue(c.salary)` |
| CollaboratorsPage.CollaboratorsView.Close | src/pages/collaborators/CollaboratorsPage.tsx:105-176 | only closes the form |
| CollaboratorsPage.CollaboratorsView.Enter | src/pages/collaborators/CollaboratorsPage.tsx:116-167 | any input but the salary lands in the form as typed, the salary kept |
| CollaboratorsPage.CollaboratorsView.EnterSalary | src/pages/collaborators/CollaboratorsPage.tsx:157 | the salary field becomes the typed text masked |
| CollaboratorsPage.CollaboratorsView.SubmitForm | src/pages/collaborators/CollaboratorsPage.tsx:39-52 | the store becomes Submit of the form, and the form closes and resets |
| CollaboratorsPage.CollaboratorsView.DeleteCollaborator | src/pages/collaborators/CollaboratorsPage.tsx:54-60 | the store becomes Delete of the id and the confirmation |
| SuppliersPage.ShownSpec | src/pages/suppliers/SuppliersPage.tsx:25-29 | the list keeps stored order and holds exactly the suppliers whose name contains the case-folded search and whose status is the filter's (any for 'all'); empty search with 'all' shows everyone |
| SuppliersPage.CountsAddUp | src/pages/suppliers/SuppliersPage.tsx:31-33 | Ativos (status 'active' or missing) and Inativos add up to the total when every status is 'active', 'inactive' or missing |
| SuppliersPage.ActiveCounterVsFilter | src/pages/suppliers/SuppliersPage.tsx:27-32 | the Ativos counter exceeds what the 'active' filter lists by exactly the suppliers without a status |
| SuppliersPage.SubmitCreates | src/pages/suppliers/SuppliersPage.tsx:40-49 | a new supplier goes in front with the clock's id, status 'active' whatever the form says, rating 3 and last order 'N/A'; the rest of the list is kept |
| SuppliersPage.SubmitEdits | src/pages/suppliers/SuppliersPage.tsx:37-39 | an edit keeps length and ids, changes only the record with the edited id and there only the six form fields |
| SuppliersPage.EditRoundTrip | src/pages/suppliers/SuppliersPage.tsx:195 | saving an untouched edit form leaves the list unchanged (unique ids) |
| SuppliersPage.DeleteSpec | src/pages/suppliers/SuppliersPage.tsx:56-62 | a delete, unconfirmed, keeps in order exactly the suppliers without the id, and changes anything exactly when the id was stored |
| SuppliersPage.SuppliersView.constructor | src/pages/suppliers/SuppliersPage.tsx:10-23 | empty search, filter 'all', form closed, nothing edited, blank form with category 'Insumos' and status 'active' |
| SuppliersPage.SuppliersView.SetSearch | src/pages/suppliers/SuppliersPage.tsx:91 | only the search changes |
| SuppliersPage.SuppliersView.SetFilter | src/pages/suppliers/SuppliersPage.tsx:73-81 | only the status filter changes |
| SuppliersPage.SuppliersView.OpenNew | src/pages/suppliers/SuppliersPage.tsx:93 | opens the blank form for a new supplier |
| SuppliersPage.SuppliersView.OpenEdit | src/pages/suppliers/SuppliersPage.tsx:195 | opens the form on the supplier's fields |
| SuppliersPage.SuppliersView.Close | src/pages/suppliers/SuppliersPage.tsx:101-157 | only closes the form |
| SuppliersPage.SuppliersView.Enter | src/pages/suppliers/SuppliersPage.tsx:112-149 | only the form changes |
| SuppliersPage.SuppliersView.SubmitForm | src/pages/suppliers/SuppliersPage.tsx:35-54 | the store becomes Submit of the form, and the form closes and resets |
| SuppliersPage.SuppliersView.DeleteSupplier | src/pages/suppliers/SuppliersPage.tsx:56-62 | the store becomes Delete of the id |
| ClientsPage.ShownSpec | src/pages/clients/ClientsPage.tsx:18-22 | the list keeps stored order and holds exactly the clients whose name contains the case-folded search and whose status is 'active' or 'inactive' as filtered (any for 'all'); any other filter shows nothing; empty search with 'all' shows everyone |
| ClientsPage.CountsAddUp | src/pages/clients/ClientsPage.tsx:24-26 | Ativos and Inativos add up to the total when every status is one of the two |
| ClientsPage.SubmitCreates | src/pages/clients/ClientsPage.tsx:33-44 | a new client goes in front with the clock's id and the form's fields, active, rating 3, credit limit 10000 with none used, last purchase 'N/A'; the rest is kept |
| ClientsPage.SubmitEdits | src/pages/clients/ClientsPage.tsx:30-32 | an edit keeps length and ids, changes only the record with the edited id and there only the six form fields |
| ClientsPage.EditRoundTrip | src/pages/clients/ClientsPage.tsx:186 | saving an untouched edit form leaves the list unchanged (unique ids) |
| ClientsPage.DeleteSpec | src/pages/clients/ClientsPage.tsx:51-57 | a delete, unconfirmed, keeps in order exactly the clients without the id, and changes anything exactly when the id was stored |
| ClientsPage.ClientsView.constructor | src/pages/clients/ClientsPage.tsx:10-16 | empty search, filter 'all', form closed, nothing edited, blank form with type 'Varejo' |
| ClientsPage.ClientsView.SetSearch | src/pages/clients/ClientsPage.tsx:86 | only the search changes |
| ClientsPage.ClientsView.SetFilter | src/pages/clients/ClientsPage.tsx:68-76 | only the status filter changes |
| ClientsPage.ClientsView.OpenNew | src/pages/clients/ClientsPage.tsx:88 | opens the blank form for a new client |
| ClientsPage.ClientsView.OpenEdit | src/pages/clients/ClientsPage.tsx:186 | opens the form on the client's fields |
| ClientsPage.ClientsView.Close | src/pages/clients/ClientsPage.tsx:96-148 | only closes the form |
| ClientsPage.ClientsView.Enter | src/pages/clients/ClientsPage.tsx:107-143 | only the form changes |
| ClientsPage.ClientsView.SubmitForm | src/pages/clients/ClientsPage.tsx:28-49 | the store becomes Submit of the form, and the form closes and resets |
| ClientsPage.ClientsView.DeleteClient | src/pages/clients/ClientsPage.tsx:51-57 | the store becomes Delete of the id |
| DashboardPage.ChartDataSpec | src/pages/dashboard/DashboardPage.tsx:17-25 | the bars are total income, total expense and the balance (income minus expense), the Saldo bar never negative, equal to the balance when that is not negative and empty exactly when expense reaches income |
| DashboardPage.ChartDataNonnegative | src/pages/dashboard/DashboardPage.tsx:17-25 | with non-negative amounts no bar is negative |
| DashboardPage.UrgentWidthBounds | src/pages/dashboard/DashboardPage.tsx:27-28 | high-priority pending tasks are at most the pending ones, so the bar width is within 0..100, 0 when nothing is pending and 100 when every pending task is high priority |
| DashboardPage.FormatTimeSpec | src/pages/dashboard/DashboardPage.tsx:30-41 | under a minute (or in the future) reads 'agora mesmo', then whole minutes under an hour, whole hours under a day, and the date from a day on; an invalid date shows as a date |
| DashboardPage.PreviewsSpec | src/pages/dashboard/DashboardPage.tsx:80-174 | the previews are the first three products, the first two active suppliers in order and the first five activities, or all of them when there are fewer |
| AuditStock.TextOr | audit_stock.cjs:27-28 | a falsy field takes the fallback |
| AuditStock.RunAudit | audit_stock.cjs:19-39 | the loop's buckets are exactly the products classified zero, critical, low and ok, each in order, and their sizes add up to the product count |
| AuditStock.AuditEntries | audit_stock.cjs:24-39 | the forEach pushes each product into the bucket its stock and minimum classify it into |
| AuditStock.AuditStep | audit_stock.cjs:30-38 | one more product adds itself at the end of its own bucket only |
| AuditStock.BucketsPartition | audit_stock.cjs:24-63 | every product lands in exactly one bucket, so the four summary counts add up to the product count |
| AuditStock.BucketMembers | audit_stock.cjs:30-38 | each bucket holds exactly the products its tests select |
| AuditStock.ClassifyAgreesWithStatus | audit_stock.cjs:32-38 | for a non-zero stock the critical/low/ok buckets are the statuses the store assigns after a stock movement |
| AuditStock.LenientReading | audit_stock.cjs:25-31 | an unreadable stock counts as 0 and lands in the zero bucket, an unreadable minimum as 0 so any positive stock is ok, and a missing name or unit becomes 'Produto Sem Nome' or 'un' |
| AuditStock.EmptyBackup | audit_stock.cjs:14 | a backup without products audits to four empty buckets |
| ExportExcel.TextOf | export_excel.cjs:21-23 | a falsy field reads as '' and a string as itself; any other truthy value makes the script throw |
| ExportExcel.UnitsCaseInsensitive | export_excel.cjs:31-40 | a recognised unit maps as its lower-case form does |
| ExportExcel.UnitsCases | export_excel.cjs:28-40 | every unit maps to (Saco, kg), (Litro, L), (Quilo, kg) or to itself twice |
| ExportExcel.UnitsExamples | export_excel.cjs:31-40 | 'SC' is a sack in kg and 'un' is kept as it is |
| ExportExcel.RowsAppend | export_excel.cjs:20-54 | one more product at the end adds its row at the end |
| ExportExcel.AppendRows | export_excel.cjs:18-54 | the loop's text is the header followed by every product's row in order, or nothing when a product throws |
| ExportExcel.Export | export_excel.cjs:18-54 | the export is the header followed by every product's row in order, or nothing when a product throws |
| ExportExcel.ExportStep | export_excel.cjs:20-54 | each product appends its row, or aborts the whole export |
| ExportExcel.ProductRow | export_excel.cjs:21-53 | the forEach body with its reassigned units builds exactly the product's row |
| ExportExcel.RowsNone | export_excel.cjs:20-63 | a product that throws leaves no output at all |
| ExportExcel.RowsLines | export_excel.cjs:53 | rows that are each one line and a line break split back into those lines |
| ExportExcel.CsvLines | export_excel.cjs:18-54 | with no line breaks inside fields the output is the header followed by exactly one line per product, in order |
| ExportExcel.HeaderColumns | export_excel.cjs:18 | the header line splits into the seven fixed column names |
| ExportExcel.LineColumns | export_excel.cjs:43-53 | every ';' in name and category becomes ','; with no ';' in the unit or numbers a line splits back into exactly its seven columns |
| ExportExcel.NumberTexts | export_excel.cjs:24-26 | a missing stock or price reads "0", the weight falls back to unit_weight then "1", and a whole number is written as its digits |
| ExportExcel.NoDotInDigits | export_excel.cjs:24-26 | replacing the first '.' leaves a string of digits unchanged |
| ExportExcel.DecimalCommaExample | export_excel.cjs:24 | 1.5 is written "1,5" |
| MigrateFinance.FixDate | migrate_finance.cjs:11-14 | only '222226-01-22' becomes '2026-01-22'; every other date is kept |
| MigrateFinance.CleanShape | migrate_finance.cjs:17-28 | a cleaned record has exactly the ten Transaction keys, no other input field, and copies id, description, category, amount, status, type and entity |
| MigrateFinance.CleanRenames | migrate_finance.cjs:26-27 | property_id and property_name become propertyId and propertyName |
| MigrateFinance.CleanDate | migrate_finance.cjs:11-22 | only the date '222226-01-22' is rewritten, every other date (missing included) is copied |
| MigrateFinance.CleanTwiceDate | migrate_finance.cjs:11-14 | cleaning twice leaves the date as the first run left it |
| MigrateFinance.MigrateSpec | migrate_finance.cjs:8-10 | one record out per transaction in, in the same order; none when the backup has no transactions |
| MigrateFinance.MigratePrepend | migrate_finance.cjs:10 | a transaction in front gives its cleaned record in front |
| Format.ParseText | src/utils/format.ts:13-19 | parseValue of text reads an empty text as 0 |
| Format.ParseTextIsParseValue | src/utils/format.ts:13-19 | parseValue of any text is a finite number, never NaN |
| Format.ParseValueFalsy | src/utils/format.ts:14-15 | a number is returned unchanged; any other false-y input gives 0; a non-number never gives NaN |
| Format.ParseTextUnparseable | src/utils/format.ts:17-18 | text whose cleaned form does not parse reads as 0 |
| Format.ParseTextBrazilian | src/utils/format.ts:16-18 | a dot-grouped integer part, a comma and fraction digits parse as the ungrouped integer with that fraction |
| Format.GroupedDigitsUngroup | src/utils/format.ts:17 | deleting the thousands dots of a grouped integer leaves a non-empty digit string |
| Format.ParseTextExample | src/utils/format.ts:16-18 | "1.234,56" parses as 1234.56 |
| Format.DigitsOf | src/utils/format.ts:23 | the kept characters are all digits |
| Format.CentsTextShape | src/utils/format.ts:25-28 | the text shown for n cents is a dot-grouped integer, one comma and exactly two digits |
| Format.FalsyHasNoDigits | src/utils/format.ts:22 | a false-y input other than 0 prints with no digits |
| Format.MaskValueShape | src/utils/format.ts:21-29 | maskValue is '' exactly when the input has no digits, and otherwise has the grouped `<int>,<dd>` shape |
| Format.MaskValueRoundTrip | src/utils/format.ts:17-28 | parseValue(maskValue(x)) is x's digits read as cents |
| Format.CentsTextValue | src/utils/format.ts:17-28 | the masked text of n cents parses back to n/100 |
| Format.CentsTextDigitsValue | src/utils/format.ts:23-28 | the digits of the masked text of n cents read back as n |
| Format.KeepDigitsUngroup | src/utils/format.ts:23-27 | keeping the digits of a dot-grouped numeral gives the numeral back |
| Format.MaskValueIdempotent | src/utils/format.ts:21-29 | masking a masked value changes nothing |
| Format.MaskValueExample | src/utils/format.ts:23-28 | maskValue(12.5) is "1,25" |
| Format.Sanitized | src/utils/format.ts:34-36 | after the filter and the dot replacement only digits and commas remain |
| Format.CommaRuleSpec | src/utils/format.ts:38-41 | splitting on ',' and gluing all but the first part equals keeping only the first comma |
| Format.FirstCommaOnlyShape | src/utils/format.ts:38-41 | the comma rule leaves digits and at most one comma |
| Format.FirstCommaOnlyFixed | src/utils/format.ts:38-41 | digits with at most one comma are left as they are |
| Format.MaskNumberSpec | src/utils/format.ts:31-42 | maskNumber keeps the digits and only the first comma, a '.' counting as a comma, and its output is digits with at most one comma |
| Format.MaskNumberIdempotent | src/utils/format.ts:31-42 | maskNumber(maskNumber(x)) = maskNumber(x) |
| Format.MasksOnEmptyAndZero | src/utils/format.ts:22-32 | both masks give '' for undefined, null and '', but 0 masks to "0" and "0,00" |
| Format.MaskNumberNat | src/utils/format.ts:31-42 | maskNumber of a whole number is its decimal digits |
| Format.ParseTextNat | src/utils/format.ts:17-18 | parseValue reads a whole number's digits back as that number |
| Format.AmountPrefillShrinks | src/pages/products/ProductsPage.tsx:191 | as written, a whole amount n prefilled with maskValue is saved back as n/100 |
| Format.AmountPrefillCounterexample | src/pages/products/ProductsPage.tsx:191 | a price of 12 is prefilled as "0,12" and saved back as 0.12 |
| Format.AmountPrefillRoundTrip | src/pages/products/ProductsPage.tsx:191 | the corrected prefill (the amount's cents, masked) saves back any non-negative whole-cent amount unchanged |
| Format.AmountPrefillShape | src/utils/format.ts:25-28 | the corrected prefill has the money shape |
| Format.AmountPrefillTwoDecimals | src/pages/products/ProductsPage.tsx:191 | as written, an amount with two decimals whose last digit is not zero (12.34) is saved back unchanged |
| Format.AmountPrefillOneDecimal | src/pages/products/ProductsPage.tsx:191 | as written, an amount with one non-zero decimal (12.5) is saved back as a tenth of itself |
| Format.AmountPrefillCents | src/pages/products/ProductsPage.tsx:191 | as written, a non-negative whole-cent amount survives the prefill exactly when it is zero or its cents' last digit is not zero |
| Format.AmountPrefillDecimalExamples | src/pages/products/ProductsPage.tsx:191 | 12.5 is saved back as 1.25 and 12.34 as 12.34 |
| Format.ParseTextFixed2 | src/utils/format.ts:17-18 | parseValue deletes the point of a toFixed(2) text, so n hundredths read as n |
| Format.MaskFixed2 | src/utils/format.ts:23-28 | maskValue of a toFixed(2) text of n hundredths shows n cents |
| OcrParser.DigitRun | src/utils/ocr-parser.ts:22-23 | the greedy digit run stays in the text, is all digits and stops at a non-digit or the end |
| OcrParser.MoneyAt | src/utils/ocr-parser.ts:22-23 | a match of the amount pattern spans at least four characters inside the text |
| OcrParser.MoneyAtShape | src/utils/ocr-parser.ts:22-23 | whatever the amount pattern matches is 1-3 digits, '.ddd' groups, ',' and two digits |
| OcrParser.SkipSpaces | src/utils/ocr-parser.ts:22 | \s* stops at the end or at a non-space character |
| OcrParser.PrefixedAt | src/utils/ocr-parser.ts:22 | a keyword-prefixed match captures a number after the keyword that the bare amount pattern also matches |
| OcrParser.BareMatchesOccur | src/utils/ocr-parser.ts:23-30 | every bare match found by the scan is an occurrence of the amount pattern |
| OcrParser.PrefixedMatchesCaptured | src/utils/ocr-parser.ts:22-25 | every prefixed match found by the scan is a number captured after a keyword |
| OcrParser.BareMatchesFind | src/utils/ocr-parser.ts:23-30 | the bare scan finds something whenever the pattern occurs at or after its start |
| OcrParser.BareMatchesNone | src/utils/ocr-parser.ts:23-30 | the bare scan finds nothing when the pattern occurs nowhere |
| OcrParser.PrefixedMatchesNone | src/utils/ocr-parser.ts:22-25 | the prefixed scan finds nothing when the amount pattern occurs nowhere |
| OcrParser.PrefixedMatchesFind | src/utils/ocr-parser.ts:22-25 | the prefixed scan finds something whenever a keyword-prefixed amount occurs |
| OcrParser.AmountShape | src/utils/ocr-parser.ts:22-35 | a non-empty amount has the shape 1-3 digits, '.ddd' groups, ',dd' and occurs in the text |
| OcrParser.AmountFound | src/utils/ocr-parser.ts:26-35 | when the amount pattern occurs anywhere, the amount is not empty |
| OcrParser.AmountEmpty | src/utils/ocr-parser.ts:16-35 | the amount is '' exactly when the amount pattern occurs nowhere in the text |
| OcrParser.AmountPrefersPrefixed | src/utils/ocr-parser.ts:25-29 | when some R$/VALOR/TOTAL/PAGO-prefixed amount occurs, the result is a prefixed capture, never a bare fallback |
| OcrParser.DateAt | src/utils/ocr-parser.ts:38 | a date match is 8 or 10 characters long |
| OcrParser.FirstDateFrom | src/utils/ocr-parser.ts:38-42 | the chosen date match is the first one: no match starts before it, and none at all when it is None |
| OcrParser.DateAtText | src/utils/ocr-parser.ts:38 | a date match reads DD/MM/YY or DD/MM/YYYY |
| OcrParser.IsoFromRaw | src/utils/ocr-parser.ts:43-49 | DD/MM/YY becomes 20YY-MM-DD and DD/MM/YYYY becomes YYYY-MM-DD |
| OcrParser.IsoFromRawShape | src/utils/ocr-parser.ts:43-49 | a matched date always converts to a well-formed YYYY-MM-DD text |
| OcrParser.ExtractDateShape | src/utils/ocr-parser.ts:38-53 | a found date gives YYYY-MM-DD; with none the result is today's date |
| OcrParser.ExtractDateIgnoresLaterText | src/utils/ocr-parser.ts:40-42 | text appended after the first date never changes the extracted date |
| OcrParser.DateAtPrefix | src/utils/ocr-parser.ts:38 | a date match reads only the ten characters from its start |
| OcrParser.FirstDateAt | src/utils/ocr-parser.ts:39-42 | a match with none before it is the one taken |
| OcrParser.TrimAll | src/utils/ocr-parser.ts:14 | every line is trimmed, one output per input line |
| OcrParser.DescriptionBounds | src/utils/ocr-parser.ts:65-73 | the description is upper case and at most 50 characters long |
| OcrParser.DescriptionChoice | src/utils/ocr-parser.ts:57-68 | the description comes from the first qualifying line (longer than 5, no 'R$', no '/', not all digits); failing that from the first non-empty line; failing that it is '' |
| OcrParser.LinesAreTrimmed | src/utils/ocr-parser.ts:14 | every line considered is a trimmed, non-empty line of the text |
| OcrParser.ParseOcrText | src/utils/ocr-parser.ts:12-75 | the result is the amount, the date and the description as specified above |
| AppContext.LogActivitySpec | src/contexts/AppContext.tsx:254-263 | the new entry comes first, at most 20 entries are kept, and the kept older entries are the newest of the old log in order |
| AppContext.FindProduct | src/contexts/AppContext.tsx:291 | a found product is stored under that id; None only when no product has it |
| AppContext.StatusFor | src/contexts/AppContext.tsx:307-310 | 'critical' exactly at or below half the minimum, 'low' exactly above half and at or below the minimum, 'ok' otherwise |
| AppContext.SetStock | src/contexts/AppContext.tsx:319 | the list keeps its length; products with the id get the new stock, status and price and the others are unchanged |
| AppContext.AdjustGuard | src/contexts/AppContext.tsx:290-340 | a rejected adjustment changes nothing; an accepted one prepends exactly one movement and keeps the older ones |
| AppContext.AdjustRejections | src/contexts/AppContext.tsx:291-297 | an unknown product id, a NaN quantity or a quantity <= 0 is rejected |
| AppContext.AdjustMovement | src/contexts/AppContext.tsx:325-340 | the movement records the product id and name, the kind, the raw parsed quantity, the unit (the product's when none is given), the converted quantity as realChange, the clock as id, the date, the reason, the user (the request's when given), the batch and the cost |
| AppContext.AdjustProducts | src/contexts/AppContext.tsx:299-319 | only the products with the requested id change, to the stock moved by the converted quantity and the status that stock earns |
| AppContext.AdjustPrice | src/contexts/AppContext.tsx:312-319 | the adjusted product's price follows the price rule for the converted quantity |
| AppContext.NewPriceRule | src/contexts/AppContext.tsx:312-317 | the price becomes cost per converted unit only for an 'in' with updatePrice and a positive cost; otherwise it is unchanged |
| AppContext.AdjustOutNonNegative | src/contexts/AppContext.tsx:301-305 | an accepted 'out' never leaves negative stock |
| AppContext.WithLedger | src/contexts/AppContext.tsx:319-340 | replacing the ledger lists gives exactly the new ledger back |
| AppContext.AppStore.constructor | src/contexts/AppContext.tsx:104-130 | every list starts empty, with the given user name |
| AppContext.AppStore.AddActivity | src/contexts/AppContext.tsx:254-263 | only the activity log changes, by logging the new entry |
| AppContext.AppStore.HandleStockAdjustment | src/contexts/AppContext.tsx:290-342 | the store's products, movements and log become the pure adjustment of the old ones; every other list is kept |
| AppContext.AppStore.AddActivityAsRendered | src/contexts/AppContext.tsx:254-263 | addActivity bound to an earlier render: only the log changes, to the new entry over that render's log |
| AppContext.AppStore.HandleStockAdjustmentAsRendered | src/contexts/AppContext.tsx:290-342 | handleStockAdjustment bound to an earlier render: the ledger becomes AdjustAsRendered of the current and the rendered lists; every other list is kept |
| AppContext.AdjustAsRenderedFresh | src/contexts/AppContext.tsx:319-341 | bound to the current lists it is the adjustment itself; an accepted one overwrites whatever the handler wrote before, a refused one writes nothing |
| Units.Weight | src/contexts/AppContext.tsx:269 | the unit weight used is never 0: the stored one when non-zero, else 1 |
| Units.UnitValue | src/contexts/AppContext.tsx:271-282 | no unit factor is ever 0 |
| Units.NormalizedNonZero | src/contexts/AppContext.tsx:284-287 | a non-zero quantity never converts to zero |
| Units.NormalizedSameUnit | src/contexts/AppContext.tsx:266-284 | with no input unit or the product's own unit the quantity passes through unchanged; NaN gives 0 |
| Units.NormalizedIsConvert | src/contexts/AppContext.tsx:284-287 | a different unit converts as quantity x factor(input unit) / factor(product unit) |
| Units.NormalizedAdditive | src/contexts/AppContext.tsx:285-287 | for a fixed product and unit the conversion is additive in the quantity |
| Units.UnitValueFallbacks | src/contexts/AppContext.tsx:271-281 | an unknown unit is worth the unit weight when it is the product's unit and 1 otherwise; a 'weight' entry is worth the unit weight |
| Units.LookupGrams | src/contexts/AppContext.tsx:64 | 'g' is a weight unit of factor 0.001 |
| Units.LookupKilos | src/contexts/AppContext.tsx:63 | 'kg' is a weight unit of factor 1 |
| Units.UnitValueKnown | src/contexts/AppContext.tsx:274-281 | a known unit with a fixed factor is worth that factor |
| TacticalFilter.FilteredSpec | src/hooks/useTacticalFilter.ts:25-63 | the filtered list is a subsequence of the data (order kept, nothing added) and holds exactly the records that pass the search, date and advanced tests |
| TacticalFilter.SearchSpec | src/hooks/useTacticalFilter.ts:28-34 | a record matches the search exactly when the term is empty, some search field contains it case-insensitively, or the custom filter accepts it |
| TacticalFilter.MissingFieldNeverMatches | src/hooks/useTacticalFilter.ts:29-30 | a field without a value never matches a non-empty term |
| TacticalFilter.NoConstraintPasses | src/hooks/useTacticalFilter.ts:43 | the values 'all', 'Todas' and '' impose no constraint |
| TacticalFilter.SplitAtUnderscore | src/hooks/useTacticalFilter.ts:52 | the field of a range key is the text before its first '_' |
| TacticalFilter.RangeMin | src/hooks/useTacticalFilter.ts:51-56 | a '<field>_min' bound keeps a record iff its field is at least the bound, inclusively, or either side is not a number |
| TacticalFilter.RangeMax | src/hooks/useTacticalFilter.ts:51-56 | a '<field>_max' bound keeps a record iff its field is at most the bound, inclusively, or either side is not a number |
| TacticalFilter.ExactKey | src/hooks/useTacticalFilter.ts:59-60 | any other key keeps a record iff the field's text equals the value exactly |
| TacticalFilter.DateBounds | src/hooks/useTacticalFilter.ts:37-39 | date bounds are inclusive, and a record without a date is rejected whenever a bound is set |
| TacticalFilter.OpenStateKeepsAll | src/hooks/useTacticalFilter.ts:28-43 | with no search, no dates and no constraining advanced value every record is shown |
| TacticalFilter.ResetAndInitialKeepAll | src/hooks/useTacticalFilter.ts:14-71 | after resetFilters, and on mount, every record is shown |
| TacticalFilter.TacticalFilterHook.constructor | src/hooks/useTacticalFilter.ts:14-23 | the hook starts closed, with no search, no dates and the five advanced keys at 'all' |
| TacticalFilter.TacticalFilterHook.ResetFilters | src/hooks/useTacticalFilter.ts:67-71 | search and dates cleared, advanced filters emptied, sidebar untouched |
| TacticalFilter.TacticalFilterHook.UpdateAdvancedFilter | src/hooks/useTacticalFilter.ts:73-75 | only the given advanced key changes, to the value |
| ImageEditor.Opened | src/components/properties/ImageEditor.tsx:76-81 | after mount the history holds exactly the current state and the cursor is 0 |
| ImageEditor.SavedSpec | src/components/properties/ImageEditor.tsx:43-49 | saving keeps the entries up to the cursor, appends the state, moves the cursor onto it, and leaves nothing to redo |
| ImageEditor.SaveAfterUndoDropsRedo | src/components/properties/ImageEditor.tsx:43-57 | saving after an undo discards the undone entry |
| ImageEditor.UndoSpec | src/components/properties/ImageEditor.tsx:51-57 | undo at index 0 does nothing; otherwise it applies the previous entry and decrements the cursor, keeping it in range |
| ImageEditor.RedoSpec | src/components/properties/ImageEditor.tsx:59-65 | redo at the last entry does nothing; otherwise it applies the next entry and increments the cursor, keeping it in range |
| ImageEditor.UndoThenRedo | src/components/properties/ImageEditor.tsx:51-65 | undo then redo restores the cursor and shows the entry under it |
| ImageEditor.RedoThenUndo | src/components/properties/ImageEditor.tsx:51-65 | redo then undo restores the cursor and shows the entry under it |
| ImageEditor.HandlersKeepTidy | src/components/properties/ImageEditor.tsx:168-192 | every handler keeps the rotation in [0, 360) and the zoom in [1, 3], in the shown state and in every history entry |
| ImageEditor.RotateFourTimes | src/components/properties/ImageEditor.tsx:304-308 | four presses of rotate give the same rotation back |
| ImageEditor.ZoomSteps | src/components/properties/ImageEditor.tsx:328-346 | the zoom buttons move by 0.2 and clamp at 1 and 3 |
| ImageEditor.ResetSpec | src/components/properties/ImageEditor.tsx:168-180 | reset shows the neutral values, recentres the crop and records them as the newest history entry |
| ImageEditor.SliderChangeSpec | src/components/properties/ImageEditor.tsx:182-188 | a slider move changes only its own filter and not the history; an unknown slider changes nothing |
| ImageEditor.ImageEditorView.constructor | src/components/properties/ImageEditor.tsx:25-81 | the slots and the mount effect give the opened editor |
| ImageEditor.ImageEditorView.ApplyState | src/components/properties/ImageEditor.tsx:67-74 | the six adjustment slots take the state's values |
| ImageEditor.ImageEditorView.SaveToHistory | src/components/properties/ImageEditor.tsx:43-49 | history and cursor become the saved ones |
| ImageEditor.ImageEditorView.HandleUndo | src/components/properties/ImageEditor.tsx:51-57 | the editor becomes Undo of the old one |
| ImageEditor.ImageEditorView.HandleRedo | src/components/properties/ImageEditor.tsx:59-65 | the editor becomes Redo of the old one |
| ImageEditor.ImageEditorView.RotateClick | src/components/properties/ImageEditor.tsx:304-308 | the rotation becomes (r+90) mod 360 and is recorded |
| ImageEditor.ImageEditorView.FlipClick | src/components/properties/ImageEditor.tsx:316-322 | the horizontal flip toggles and is recorded |
| ImageEditor.ImageEditorView.ZoomOutClick | src/components/properties/ImageEditor.tsx:330-334 | the zoom steps down, not below 1, and is recorded |
| ImageEditor.ImageEditorView.ZoomInClick | src/components/properties/ImageEditor.tsx:342-346 | the zoom steps up, not above 3, and is recorded |
| ImageEditor.ImageEditorView.HandleSliderChange | src/components/properties/ImageEditor.tsx:182-188 | the named filter takes the value |
| ImageEditor.ImageEditorView.HandleSliderRelease | src/components/properties/ImageEditor.tsx:190-192 | the current state is recorded |
| ImageEditor.ImageEditorView.ResetFilters | src/components/properties/ImageEditor.tsx:168-180 | the editor becomes Reset of the old one |
| PropertyAttachments.AcceptableSpec | src/components/properties/PropertyAttachments.tsx:69-83 | a file is accepted exactly when its type is image/jpeg, image/png, image/webp or application/pdf and its size is at most 10x1024x1024 bytes |
| PropertyAttachments.SizeLimit | src/components/properties/PropertyAttachments.tsx:71-81 | exactly 10 MiB is accepted, one byte more is refused; a GIF gets the invalid-type notice |
| PropertyAttachments.TypeCheckedFirst | src/components/properties/PropertyAttachments.tsx:74-81 | a file both of a wrong type and too large gets only the type notice |
| PropertyAttachments.AcceptedSpec | src/components/properties/PropertyAttachments.tsx:73-83 | the accepted files are exactly the acceptable ones, in their relative order |
| PropertyAttachments.OneNoticePerRejected | src/components/properties/PropertyAttachments.tsx:73-83 | every file is either accepted or raises exactly one notice |
| PropertyAttachments.AddCallSpec | src/components/properties/PropertyAttachments.tsx:85-87 | onAddFiles is called exactly when some file is accepted, and then with every accepted file |
| PropertyAttachments.RouteEditSpec | src/components/properties/PropertyAttachments.tsx:247-257 | an edited image goes to onUpdateExistingFile iff its id is among the existing attachments, else to onUpdatePendingFile, always under its id and as a JPEG |
| PropertyAttachments.EditedFileHasValidType | src/components/properties/PropertyAttachments.tsx:248 | the edited image's type passes the picker's type check |
| PropertyAttachments.AttachmentsView.constructor | src/components/properties/PropertyAttachments.tsx:31-32 | not dragging, no image in the editor |
| PropertyAttachments.AttachmentsView.DragOver | src/components/properties/PropertyAttachments.tsx:46-49 | the drag flag sets |
| PropertyAttachments.AttachmentsView.DragLeave | src/components/properties/PropertyAttachments.tsx:51-53 | the drag flag clears |
| PropertyAttachments.AttachmentsView.Drop | src/components/properties/PropertyAttachments.tsx:55-93 | the drag ends, the notices are the rejected files' and onAddFiles gets the accepted files when there are any |
| PropertyAttachments.AttachmentsView.StartEditing | src/components/properties/PropertyAttachments.tsx:32 | the editor opens on that image |
| PropertyAttachments.AttachmentsView.CancelEditing | src/components/properties/PropertyAttachments.tsx:246 | the editor closes |
| PropertyAttachments.AttachmentsView.SaveEdited | src/components/properties/PropertyAttachments.tsx:247-259 | the image is routed by RouteEdit and the editor closes |
| ConfirmModal.ArmedSpec | src/components/ui/TechnicalConfirmModal.tsx:30 | the gate accepts exactly the nine-character inputs whose upper-cased letters spell CONFIRMAR |
| ConfirmModal.LowerCaseArmed | src/components/ui/TechnicalConfirmModal.tsx:30 | "confirmar" is accepted |
| ConfirmModal.CapitalisedArmed | src/components/ui/TechnicalConfirmModal.tsx:30 | "Confirmar" is accepted |
| ConfirmModal.KeywordArmed | src/components/ui/TechnicalConfirmModal.tsx:30 | "CONFIRMAR" is accepted |
| ConfirmModal.NotArmedExamples | src/components/ui/TechnicalConfirmModal.tsx:30 | a missing letter, a leading or trailing space, or nothing typed is refused |
| ConfirmModal.ArmedIgnoresCase | src/components/ui/TechnicalConfirmModal.tsx:30 | upper-casing the input first does not change the verdict |
| ConfirmModal.ConfirmModalView.constructor | src/components/ui/TechnicalConfirmModal.tsx:17-18 | empty input, not animating |
| ConfirmModal.ConfirmModalView.OpenChanged | src/components/ui/TechnicalConfirmModal.tsx:20-25 | opening clears the input (so the confirm button is disabled); closing changes nothing |
| ConfirmModal.ConfirmModalView.Type | src/components/ui/TechnicalConfirmModal.tsx:92 | the input becomes the typed text |
| ConfirmModal.ConfirmModalView.HandleConfirm | src/components/ui/TechnicalConfirmModal.tsx:29-112 | an accepted input calls onConfirm then onClose; a refused one calls neither; a call happens exactly when the button is enabled |
| BulkAuditForm.DetectSpec | src/pages/products/components/BulkAuditForm.tsx:58-64 | the lookup finds a value exactly when some key occurs in the text, and then the value of the first key in table order that occurs |
| BulkAuditForm.DetectSmartFields | src/pages/products/components/BulkAuditForm.tsx:58-64 | the loop with its early return gives the first matching keyword's fields of the upper-cased name, or nothing |
| BulkAuditForm.SmartFieldsAt | src/pages/products/components/BulkAuditForm.tsx:30-64 | a name containing a key, with no earlier key contained, gets that key's category, unit, capacity unit and unit weight |
| BulkAuditForm.UpdatedSpec | src/pages/products/components/BulkAuditForm.tsx:85-101 | the edited cell takes the value; a name that hits the keyword table also overwrites category, unit, capacity unit and unit weight; nothing else in the row moves |
| BulkAuditForm.UpdateEntrySpec | src/pages/products/components/BulkAuditForm.tsx:85-101 | the grid keeps its length; rows with the id are updated and the others kept |
| BulkAuditForm.RemoveRowSpec | src/pages/products/components/BulkAuditForm.tsx:73-77 | a one-row grid is left alone; otherwise exactly the rows without the id stay, in order |
| BulkAuditForm.RemoveRowKeepsARow | src/pages/products/components/BulkAuditForm.tsx:73-77 | with distinct ids the grid never becomes empty |
| BulkAuditForm.ApplyGlobalsSpec | src/pages/products/components/BulkAuditForm.tsx:116-118 | every row takes the global category and unit, and nothing else changes |
| BulkAuditForm.RemoveEmptyRowsSpec | src/pages/products/components/BulkAuditForm.tsx:208-215 | the named rows are kept in order, or one fresh initial row when none is named; the grid is never empty |
| BulkAuditForm.PastedSpec | src/pages/products/components/BulkAuditForm.tsx:120-146 | a paste without a non-blank line changes nothing; otherwise the grid becomes one row per non-blank line |
| BulkAuditForm.PastedRows | src/pages/products/components/BulkAuditForm.tsx:125-129 | line i of the paste becomes row i, with id now + i |
| BulkAuditForm.PasteLinesSpec | src/pages/products/components/BulkAuditForm.tsx:122 | the pasted lines are the non-blank lines of the text, a trailing carriage return dropped, in order |
| BulkAuditForm.PasteRowFallbacks | src/pages/products/components/BulkAuditForm.tsx:126-133 | the name is upper-cased; category and unit come from the column, else the keyword table, else the global preset |
| BulkAuditForm.ToProductSpec | src/pages/products/components/BulkAuditForm.tsx:220-233 | status 'low' exactly when stock is at or below the minimum, else 'ok'; the unit weight is never 0 and defaults to 1; the minimum defaults to 0 |
| BulkAuditForm.ValidProductsSpec | src/pages/products/components/BulkAuditForm.tsx:218-234 | one product per named row, in row order, each built from its row |
| BulkAuditForm.NamedRowsSpec | src/pages/products/components/BulkAuditForm.tsx:219-220 | the rows sent are exactly the rows with a non-blank name, in grid order |
| BulkAuditForm.EnabledSubmitSendsEveryRow | src/pages/products/components/BulkAuditForm.tsx:218-220 | when the submit button is enabled every row is sent |
| BulkAuditForm.HasDuplicatesSpec | src/pages/products/components/BulkAuditForm.tsx:243-244 | the set-size test holds exactly when some trimmed upper-cased non-empty name appears twice |
| BulkAuditForm.CaseVariantsAreDuplicates | src/pages/products/components/BulkAuditForm.tsx:243-244 | two names differing only in letter case and surrounding spaces are duplicates |
| BulkAuditForm.NameExistsSpec | src/pages/products/components/BulkAuditForm.tsx:247-250 | a blank name never exists; a name equal to a stored product's, after trim and upper-casing, does |
| BulkAuditForm.NewRowAddsNothing | src/pages/products/components/BulkAuditForm.tsx:66-71 | adding a row leaves the grid's total value unchanged |
| BulkAuditForm.BulkGridView.constructor | src/pages/products/components/BulkAuditForm.tsx:52-56 | one initial row, presets 'Fertilizantes' and 'kg', advanced panel closed |
| BulkAuditForm.BulkGridView.SetGlobals | src/pages/products/components/BulkAuditForm.tsx:54-55 | only the presets change |
| BulkAuditForm.BulkGridView.AddRow | src/pages/products/components/BulkAuditForm.tsx:66-71 | appends the preset row, capacity unit L for litres and kg otherwise |
| BulkAuditForm.BulkGridView.RemoveRowClick | src/pages/products/components/BulkAuditForm.tsx:73-77 | the grid becomes RemoveRow of the old grid |
| BulkAuditForm.BulkGridView.ClearGrid | src/pages/products/components/BulkAuditForm.tsx:79-83 | after the confirmation the grid is one fresh row; otherwise unchanged |
| BulkAuditForm.BulkGridView.Edit | src/pages/products/components/BulkAuditForm.tsx:85-101 | the grid becomes UpdateEntry of the old grid |
| BulkAuditForm.BulkGridView.KeyDown | src/pages/products/components/BulkAuditForm.tsx:104-114 | Ctrl+D copies the cell above into the row; Enter in the last row's location cell adds a row; other keys change nothing |
| BulkAuditForm.BulkGridView.ApplyGlobalsClick | src/pages/products/components/BulkAuditForm.tsx:116-118 | the grid takes the presets on every row |
| BulkAuditForm.BulkGridView.Paste | src/pages/products/components/BulkAuditForm.tsx:120-146 | the grid becomes Pasted of the old grid |
| BulkAuditForm.BulkGridView.RemoveEmptyRowsClick | src/pages/products/components/BulkAuditForm.tsx:208-215 | the grid becomes RemoveEmptyRows of the old grid |
| BulkAuditForm.BulkGridView.Submit | src/pages/products/components/BulkAuditForm.tsx:217-240 | onSubmit gets the named rows as products when there is at least one, and is not called otherwise |
| AuditForm.SuggestedWeightTable | src/pages/products/components/AuditForm.tsx:145-156 | kg, L, un, dose, m, m², m³ suggest 1,00; ton and big bag 1000,00; sacks 50,00; bombona and balde 20,00; arroba 15,00; ml and g 0,001 |
| AuditForm.SuggestedWeightKnown | src/pages/products/components/AuditForm.tsx:147-155 | a known unit fixes the weight whatever was typed before; any other unit keeps the typed weight |
| AuditForm.EditTouchesOneField | src/pages/products/components/AuditForm.tsx:91-238 | an input writes its own field, masked as that input masks it, and no other field, and leaves the unit alone |
| AuditForm.MaskedShapes | src/pages/products/components/AuditForm.tsx:192-238 | the quantity inputs hold digits with at most one comma; the price holds '' or a money text; the batch is upper case |
| AuditForm.MaskedStable | src/pages/products/components/AuditForm.tsx:192-210 | retyping what a quantity or batch input shows leaves it as it is |
| AuditForm.PrimaryStepSpec | src/pages/products/components/AuditForm.tsx:293 | from zones 1 and 2 the primary button moves one zone on; it submits exactly from zone 3 |
| AuditForm.ThirdPressSubmits | src/pages/products/components/AuditForm.tsx:293 | from zone 1 the third press submits |
| AuditForm.QuickSaveSpec | src/pages/products/components/AuditForm.tsx:35-40 | quick save does nothing without a name, and saves exactly when a name was typed and the callback was passed |
| AuditForm.AuditFormView.constructor | src/pages/products/components/AuditForm.tsx:31 | blank form in zone 1, no notice |
| AuditForm.AuditFormView.ChooseUnit | src/pages/products/components/AuditForm.tsx:145-156 | the unit and the suggested weight are set, nothing else |
| AuditForm.AuditFormView.Type | src/pages/products/components/AuditForm.tsx:91-238 | the form becomes Edit of the old form |
| AuditForm.AuditFormView.SelectZone | src/pages/products/components/AuditForm.tsx:60-70 | the zone becomes the chosen one |
| AuditForm.AuditFormView.PrimaryClick | src/pages/products/components/AuditForm.tsx:293 | zones 1 and 2 advance the zone; zone 3 submits and keeps it |
| AuditForm.AuditFormView.QuickSaveClick | src/pages/products/components/AuditForm.tsx:35-40 | the outcome is QuickSave's and the notice goes up only after a save |
| AuditForm.AuditFormView.NoticeTimeout | src/pages/products/components/AuditForm.tsx:39 | the notice goes down |
| QuickAdjust.SubmissionGuard | src/pages/products/components/QuickAdjustPopover.tsx:37-40 | nothing is sent exactly when the parsed quantity is not positive; an empty quantity never sends |
| QuickAdjust.SubmissionFields | src/pages/products/components/QuickAdjustPopover.tsx:49-59 | a sent payload carries the product id, kind, parsed quantity, operator and date; the cost exactly for an entry; the plot exactly when one was chosen; the batch exactly when typed |
| QuickAdjust.FinalReasonSpec | src/pages/products/components/QuickAdjustPopover.tsx:41-47 | the reason is the chosen one unless an exit names an existing plot; then it is 'Aplicação: ' and the plot's name, followed by ' - ' and the reason exactly when that is not the default one |
| QuickAdjust.SelectedPlotRoundTrip | src/pages/products/components/QuickAdjustPopover.tsx:172-177 | choosing a plot's option finds that plot and sends its id |
| QuickAdjust.StockPreviewSpec | src/pages/products/components/QuickAdjustPopover.tsx:64-94 | no preview while the quantity reads 0; the forecast stock is the store's stock-after rule for the kind and quantity; the warning is up exactly when it is negative |
| QuickAdjust.EntryNeverWarns | src/pages/products/components/QuickAdjustPopover.tsx:68-89 | an entry of a non-negative quantity on a non-negative stock never warns |
| QuickAdjust.EnteredShapes | src/pages/products/components/QuickAdjustPopover.tsx:132-197 | the quantity holds digits with at most one comma, the cost '' or a money text, the batch upper case |
| QuickAdjust.QuickAdjustView.constructor | src/pages/products/components/QuickAdjustPopover.tsx:26-33 | empty quantity, kind 'in', the audit reason, the user's name as operator, today's date |
| QuickAdjust.QuickAdjustView.Enter | src/pages/products/components/QuickAdjustPopover.tsx:125-197 | the form becomes Entered of the old form |
| QuickAdjust.QuickAdjustView.Submit | src/pages/products/components/QuickAdjustPopover.tsx:37-62 | the payload is Submission of the form, and the popover closes exactly when one is sent |
| AdvancedFilters.ToggleSpec | src/pages/products/components/AdvancedFilters.tsx:41-45 | after a toggle the value is present exactly when it was absent; every other value keeps its membership |
| AdvancedFilters.ToggleTwice | src/pages/products/components/AdvancedFilters.tsx:41-52 | toggling twice restores every membership, and the list itself when the value was absent |
| AdvancedFilters.ToggleCategory | src/pages/products/components/AdvancedFilters.tsx:41-46 | only the categories change |
| AdvancedFilters.ToggleStatus | src/pages/products/components/AdvancedFilters.tsx:48-53 | only the statuses change |
| AdvancedFilters.TogglesSpec | src/pages/products/components/AdvancedFilters.tsx:41-53 | a category or status chip is on after a click exactly when it was off, and a second click undoes a first one that switched it on |
| AdvancedFilters.ToggleWindow | src/pages/products/components/AdvancedFilters.tsx:167 | only the expiration window changes |
| AdvancedFilters.ToggleWindowSpec | src/pages/products/components/AdvancedFilters.tsx:167 | the active window switches off, any other is chosen; from no window two clicks restore the criteria |
| AdvancedFilters.SetRangeMasked | src/pages/products/components/AdvancedFilters.tsx:143-153 | a range field holds the masked text, digits with at most one comma; the chips are untouched |
| ProductHistory.NewerIsStrictOrder | src/pages/products/components/ProductHistoryDrawer.tsx:24 | the newest-first comparison is a strict order |
| ProductHistory.ProductMovementsSpec | src/pages/products/components/ProductHistoryDrawer.tsx:22-24 | the list is a permutation of the product's movements, holds exactly them, and runs newest first |
| ProductHistory.PlaceholderSpec | src/pages/products/components/ProductHistoryDrawer.tsx:20-61 | a closed drawer renders nothing; the open drawer shows the placeholder exactly when no movement belongs to the product |
| ProductsPage.VisibleSpec | src/pages/products/ProductsPage.tsx:55-88 | the list keeps store order and holds exactly the products that meet the search, category, status, price, stock and expiration conditions |
| ProductsPage.ClearedFiltersShowAll | src/pages/products/ProductsPage.tsx:38-88 | with an empty search and the initial criteria every product is listed |
| ProductsPage.WindowNeedsFutureDate | src/pages/products/ProductsPage.tsx:81-85 | with an expiration window chosen, a product without a date or already expired is hidden |
| ProductsPage.SingleStatusChip | src/pages/products/ProductsPage.tsx:63-73 | an ok, low or critical chip keeps exactly that status; an unknown chip keeps everything |
| ProductsPage.StatsPrepend | src/pages/products/ProductsPage.tsx:90-92 | one more product adds one item, one alert when not 'ok', and its stock times price to the value |
| ProductsPage.StatsAlerts | src/pages/products/ProductsPage.tsx:90-91 | the alerts never exceed the items and are the low plus the critical products |
| ProductsPage.AlertsSplit | src/pages/products/ProductsPage.tsx:91 | with only ok, low and critical statuses the non-ok count is the low count plus the critical count |
| ProductsPage.QuickAdjustedSpec | src/pages/products/ProductsPage.tsx:94-100 | the store's adjustment decides products and movements; the log becomes the render's log with the page's entry only, also when the store took the adjustment |
| ProductsPage.QuickAdjustedIntendedLogsBoth | src/pages/products/ProductsPage.tsx:94-100 | as intended, an accepted quick adjustment logs the page's entry over the store's 'Entrada/Saída de estoque' entry, with the same products and movements |
| ProductsPage.QuickAdjustLosesStoreEntry | src/pages/products/ProductsPage.tsx:94-100 | as written, an accepted quick adjustment grows a short log by one entry, the page's, where the intended handler grows it by two |
| ProductsPage.QuickRequestQuantity | src/pages/products/ProductsPage.tsx:95-98 | the payload is asked in the product's own unit and a positive quantity passes the store's check |
| ProductsPage.PreviewAgreesWithStore | src/pages/products/ProductsPage.tsx:94-98 | an exit sent from the popover is refused by the store exactly when the popover warned of negative stock |
| ProductsPage.EntriesAccepted | src/pages/products/ProductsPage.tsx:94-98 | an entry sent from the popover on a stored product is always taken |
| ProductsPage.ProductDataSpec | src/pages/products/ProductsPage.tsx:104-111 | the parsed amounts; status 'low' exactly when stock is at or below the minimum, else 'ok'; a zero weight becomes 1 |
| ProductsPage.SubmitEditSpec | src/pages/products/ProductsPage.tsx:113-115 | an edit replaces exactly the products with the edited id by the form's data, keeps the count and the movements |
| ProductsPage.SubmitNewSpec | src/pages/products/ProductsPage.tsx:116-137 | a new product goes first under the clock's id; an opening entry of its stock is recorded exactly when that stock is positive |
| ProductsPage.SubmitKeepsIdsUnique | src/pages/products/ProductsPage.tsx:113-119 | ids stay distinct when every stored id lies before the clock |
| ProductsPage.EditRoundTrip | src/pages/products/ProductsPage.tsx:102-198 | with the corrected price prefill (AmountPrefill), submitting an unchanged edit gives back a product with whole units and cents, with only the status recomputed; as written see EditAsWrittenShrinks |
| ProductsPage.EditAsWrittenShrinks | src/pages/products/ProductsPage.tsx:102-198 | with the page's own prefill, submitting an unchanged edit of a whole price n saves n/100, all else as in the round trip |
| ProductsPage.EditAsWrittenCounterexample | src/pages/products/ProductsPage.tsx:102-198 | opening the edit of a product priced 12 and submitting it unchanged stores the price 0.12 |
| ProductsPage.PrefillQuantities | src/pages/products/ProductsPage.tsx:187-190 | the prefilled stock and minimum parse back to the product's |
| ProductsPage.PrefillWeight | src/pages/products/ProductsPage.tsx:189 | the prefilled weight parses back to the product's |
| ProductsPage.PrefillPrice | src/pages/products/ProductsPage.tsx:191 | the prefilled price parses back to the product's (with the corrected prefill, see Findings) |
| ProductsPage.ProductDataOf | src/pages/products/ProductsPage.tsx:104-111 | form texts that parse to a product's amounts give that product back with its status recomputed |
| ProductsPage.WholeRoundTrip | src/pages/products/ProductsPage.tsx:187 | a whole non-negative quantity survives maskNumber then parseValue |
| ProductsPage.BulkLedgerSpec | src/pages/products/ProductsPage.tsx:145-167 | product i goes in front with id now + i; movement i is an entry of its whole stock with id now + 100 + i; the old lists follow |
| ProductsPage.BulkKeepsIdsUnique | src/pages/products/ProductsPage.tsx:146-151 | the bulk ids are distinct from each other and from earlier ones when every stored id lies before the clock |
| ProductsPage.DeleteSpec | src/pages/products/ProductsPage.tsx:172-180 | a refusal changes nothing; a confirmed removal keeps exactly the other products in order, keeps the movements, and logs only when the product existed |
| ProductsPage.CategoryStyleSpec | src/pages/products/ProductsPage.tsx:200-212 | agricultural, logistics and infrastructure categories get their colours; any other category gets slate |
| ProductsPage.CategoryStyleOperations | src/pages/products/ProductsPage.tsx:204-210 | the operational categories get cyan |
| ProductsPage.CategoryStyleLivestock | src/pages/products/ProductsPage.tsx:205-211 | the livestock categories get rose |
| ProductsPage.SaveProduct | src/pages/products/ProductsPage.tsx:113-137 | the store's lists become SubmitProduct of the old ones |
| ProductsPage.ProductsPageView.constructor | src/pages/products/ProductsPage.tsx:27-53 | empty search, initial criteria, blank form in zone 1, nothing open |
| ProductsPage.ProductsPageView.HandleQuickAdjust | src/pages/products/ProductsPage.tsx:94-100 | the store becomes QuickAdjusted of the old one: the adjustment, then the page's entry over the render's log |
| ProductsPage.ProductsPageView.HandleProductSubmit | src/pages/products/ProductsPage.tsx:102-143 | the lists change as SubmitProduct says; the form is blanked, zone 1, closed, nothing being edited |
| ProductsPage.ProductsPageView.HandleBulkSubmit | src/pages/products/ProductsPage.tsx:145-170 | the lists change as BulkLedger says and the grid closes |
| ProductsPage.ProductsPageView.DeleteProduct | src/pages/products/ProductsPage.tsx:172-180 | the lists change as DeleteLedger says |
| ProductsPage.ProductsPageView.OpenEdit | src/pages/products/ProductsPage.tsx:182-198 | the product's id is being edited, the form is its prefill with the price as written, `maskValue(product.price)`, open in zone 1 |
| InventoryPage.FilteredProductsSpec | src/pages/inventory/InventoryPage.tsx:35-44 | the list keeps store order and holds exactly the products whose name mentions the search and that pass the status chip |
| InventoryPage.ChipsNest | src/pages/inventory/InventoryPage.tsx:39-41 | every product under 'critical' is also under 'low'; with no search the 'all' chip lists every product |
| InventoryPage.UrgencyMatchesLowChip | src/pages/inventory/InventoryPage.tsx:40-49 | with no search the 'low' chip lists as many products as the low and critical counters add up to |
| InventoryPage.UrgencyMatchesCriticalChip | src/pages/inventory/InventoryPage.tsx:41-48 | with no search the 'critical' chip lists as many products as the critical counter |
| InventoryPage.FilteredMovementsSpec | src/pages/inventory/InventoryPage.tsx:51-54 | the 'all' tab shows every movement; any other tab exactly the movements of that type |
| InventoryPage.EntriesAndExits | src/pages/inventory/InventoryPage.tsx:56-59 | entries plus exits never exceed the movements, and make them all up when every movement is 'in' or 'out' |
| InventoryPage.CountersMatchTabs | src/pages/inventory/InventoryPage.tsx:51-59 | the entry and exit counters count what the 'in' and 'out' tabs show |
| InventoryPage.ValueAddedNonNegative | src/pages/inventory/InventoryPage.tsx:60 | the value added is not negative while no entry carries a negative cost |
| InventoryPage.StatsPrepend | src/pages/inventory/InventoryPage.tsx:56-61 | a movement in front counts once, as an entry or an exit by its type, and an entry adds its cost, or 0 for a missing one |
| InventoryPage.StatsAfterAdjust | src/pages/inventory/InventoryPage.tsx:56-100 | an adjustment the store takes adds its movement to the counters; one it refuses leaves them unchanged |
| InventoryPage.AdjustMovementCost | src/pages/inventory/InventoryPage.tsx:96 | the recorded movement carries the request's cost |
| InventoryPage.CostFillInflates | src/pages/inventory/InventoryPage.tsx:69-96 | as written, the suggested cost text reads back as a hundred times the amount (to the cent) |
| InventoryPage.CostFillCounterexample | src/pages/inventory/InventoryPage.tsx:69-96 | a suggested cost of 1.50 is written '1.50' and read back as 150 |
| InventoryPage.CostFillValue | src/pages/inventory/InventoryPage.tsx:69 | the corrected fill reads back as the amount to the nearest cent |
| InventoryPage.CostFillRoundTrip | src/pages/inventory/InventoryPage.tsx:69 | the corrected fill is a money text and returns an amount of whole cents exactly |
| InventoryPage.SuggestedCostSpec | src/pages/inventory/InventoryPage.tsx:63-75 | the cost clears exactly when no product or no quantity is there; an entry is priced by the fill; an exit's cost is left alone |
| InventoryPage.FinalReasonSpec | src/pages/inventory/InventoryPage.tsx:81-87 | the reason is the typed one unless an exit names an existing plot; then 'Aplicação: ' and the plot's name, followed by ' - ' and the reason when one was typed |
| InventoryPage.SubmissionSpec | src/pages/inventory/InventoryPage.tsx:77-100 | nothing is sent exactly without a product or a quantity; otherwise the request carries the form's fields, the parsed cost and no price update, and the store accepts the quantity exactly when it reads positive |
| InventoryPage.ZeroQuantityRefused | src/pages/inventory/InventoryPage.tsx:79-100 | a quantity '0' passes the page's check and the store refuses it |
| InventoryPage.SentCost | src/pages/inventory/InventoryPage.tsx:96 | a corrected fill is sent as the amount to the cent |
| InventoryPage.SentCostAsWritten | src/pages/inventory/InventoryPage.tsx:69-96 | the fill as written is sent as a hundred times the amount |
| InventoryPage.PreviewAgreesWithStore | src/pages/inventory/InventoryPage.tsx:89-162 | for an exit of a positive quantity the store refuses exactly when the preview warned of negative stock |
| InventoryPage.EntriesAccepted | src/pages/inventory/InventoryPage.tsx:77-100 | an entry of a positive quantity on a stored product is always taken |
| InventoryPage.InventoryPageView.constructor | src/pages/inventory/InventoryPage.tsx:16-33 | every filter at 'all', the modal closed, an entry form dated today for the user |
| InventoryPage.InventoryPageView.OpenAdjustment | src/pages/inventory/InventoryPage.tsx:104-116 | the product and type are chosen, the form reset to its unit and today, and the cost suggestion already settled with the fill as written, `toFixed(2)` |
| InventoryPage.InventoryPageView.Enter | src/pages/inventory/InventoryPage.tsx:63-75 | the input lands in the form, and a change of a watched input reruns the cost suggestion with the fill as written, `toFixed(2)` |
| InventoryPage.InventoryPageView.CloseModal | src/pages/inventory/InventoryPage.tsx:118-121 | the modal closes, the product is cleared, the form is kept |
| InventoryPage.InventoryPageView.SubmitAdjustment | src/pages/inventory/InventoryPage.tsx:77-102 | without a product or a quantity nothing changes; otherwise the store adjusts as Submission says and the modal closes |
| FieldApplications.UndoCancels | src/pages/field/FieldApplicationsPage.tsx:142 | for 'in' and 'out' movements, what a deletion adds back is exactly the opposite of what the movements changed |
| FieldApplications.FirstIndex | src/pages/field/FieldApplicationsPage.tsx:139 | the index found holds the id and no earlier product does; none when no product has the id |
| FieldApplications.ReverseOneShape | src/pages/field/FieldApplicationsPage.tsx:246-251 | with unique ids one step changes only the stock of the product with the movement's id, by the movement's undo |
| FieldApplications.ReverseAllStock | src/pages/field/FieldApplicationsPage.tsx:244-253 | after the forEach every product's stock has grown by the undo of its own movements, nothing else changed |
| FieldApplications.FindProductUnique | src/pages/field/FieldApplicationsPage.tsx:246 | with unique ids, looking a stored product up by its id finds it |
| FieldApplications.TaggedPrepend | src/pages/field/FieldApplicationsPage.tsx:163-241 | a movement tagged with the application joins its tagged movements and adds its change to their sum |
| FieldApplications.AdjustShadows | src/pages/field/FieldApplicationsPage.tsx:175-189 | one tagged adjustment changes products only in stock, status and price, and keeps every product's stock net of the application's movements |
| FieldApplications.AdjustShadowsAt | src/pages/field/FieldApplicationsPage.tsx:175-189 | the same, for one product of an accepted adjustment |
| FieldApplications.InOutPrepend | src/pages/field/FieldApplicationsPage.tsx:154-178 | adding an 'in' or 'out' movement keeps every movement 'in' or 'out' |
| FieldApplications.ShadowsTrans | src/pages/field/FieldApplicationsPage.tsx:175-189 | keeping the net stock composes over successive adjustments |
| FieldApplications.ShadowsSelf | src/pages/field/FieldApplicationsPage.tsx:175-189 | doing nothing keeps the net stock |
| FieldApplications.ShadowsUnique | src/pages/field/FieldApplicationsPage.tsx:175-189 | adjustments keep product ids distinct |
| FieldApplications.ApplyAllShadows | src/pages/field/FieldApplicationsPage.tsx:175-189 | any run of tagged exits keeps every product's net stock and ids |
| FieldApplications.DeleteAppNet | src/pages/field/FieldApplicationsPage.tsx:241-255 | deleting the application leaves every product with its stock net of the application's movements |
| FieldApplications.DeleteAppMovements | src/pages/field/FieldApplicationsPage.tsx:254 | exactly the movements of other applications and untagged ones remain; the activities are untouched by the ledger step |
| FieldApplications.UntaggedIsAll | src/pages/field/FieldApplicationsPage.tsx:254 | without movements of the application, removing them removes nothing |
| FieldApplications.DeleteUndoesApplication | src/pages/field/FieldApplicationsPage.tsx:174-255 | after any run of tagged exits, deleting the application restores every product's stock and the movement list exactly |
| FieldApplications.RestoredAt | src/pages/field/FieldApplicationsPage.tsx:241-255 | the same, one product at a time |
| FieldApplications.AddToMixGuard | src/pages/field/FieldApplicationsPage.tsx:59-68 | a line is refused exactly when product, dose or area is missing or the product is already in the mix |
| FieldApplications.AddToMixEntry | src/pages/field/FieldApplicationsPage.tsx:70-91 | an accepted line is appended after the old mix, with total quantity area times converted dose and cost total quantity times price |
| FieldApplications.AddToMixDistinct | src/pages/field/FieldApplicationsPage.tsx:65-68 | adding a line keeps the mix free of repeated products |
| FieldApplications.RemoveIndexSpec | src/pages/field/FieldApplicationsPage.tsx:97-102 | exactly the line at the index goes, the others keep their order; an index outside the mix removes nothing |
| FieldApplications.RemoveIndexDistinct | src/pages/field/FieldApplicationsPage.tsx:97-102 | removing a line keeps the mix free of repeated products |
| FieldApplications.TotalCostSum | src/pages/field/FieldApplicationsPage.tsx:104 | with every cost a number the total is their sum; a single NaN cost makes it NaN |
| FieldApplications.TotalCostAppend | src/pages/field/FieldApplicationsPage.tsx:104 | adding a line adds its cost to the total |
| FieldApplications.OutRequests | src/pages/field/FieldApplicationsPage.tsx:175-189 | one exit per mix line, in mix order |
| FieldApplications.OutRequestsTagged | src/pages/field/FieldApplicationsPage.tsx:175-189 | every exit is an 'out' of the line's total quantity tagged with the application id |
| FieldApplications.WithOutcome | src/pages/field/FieldApplicationsPage.tsx:169-191 | the lists handleSubmit writes are replaced and read back as written |
| FieldApplications.ReplaceApp | src/pages/field/FieldApplicationsPage.tsx:169 | exactly the applications with the id are replaced, the count kept |
| FieldApplications.SaveNewIs | src/pages/field/FieldApplicationsPage.tsx:173-192 | the intended save of a new application is its exits applied in turn, then the application in front and the log entry |
| FieldApplications.SaveEditIs | src/pages/field/FieldApplicationsPage.tsx:121-171 | the intended save of a changed edit is the reversal and the re-issue applied in turn when a stock field changed, then the replacement and the log entry |
| FieldApplications.SaveNew | src/pages/field/FieldApplicationsPage.tsx:173-191 | in the intended save a new application is listed first; a 'completed' one issues one tagged exit per line; any other status leaves the stock |
| FieldApplications.LastWriteNone | src/contexts/AppContext.tsx:319 | a run of setter calls none of which writes leaves the value as it was |
| FieldApplications.LastWriteWins | src/contexts/AppContext.tsx:319 | a run of setter calls that each write a value computed from the render keeps the value of the last call that writes |
| FieldApplications.ApplyAllAsRenderedIsLastWrite | src/pages/field/FieldApplicationsPage.tsx:175-189 | the exits as the page issues them are such a run: an exit writes when the render's stock allows it, and writes its adjustment of the render's lists |
| FieldApplications.ApplyAllAsRenderedNone | src/pages/field/FieldApplicationsPage.tsx:175-189 | exits that the render's stock all refuses leave the lists as the handler had them |
| FieldApplications.ApplyAllAsRenderedLastWins | src/pages/field/FieldApplicationsPage.tsx:175-189 | when exit k is the last one the render's stock allows, the lists are exactly that exit's adjustment of the render's lists |
| FieldApplications.SaveAsWrittenNewIs | src/pages/field/FieldApplicationsPage.tsx:173-192 | as written, a new application's save is its exits as rendered, then the application in front and only the page's entry over the render's log |
| FieldApplications.SaveAsWrittenEditIs | src/pages/field/FieldApplicationsPage.tsx:121-171 | as written, a changed edit is the reversal then the exits as rendered when a stock field changed, then the replacement and only the page's entry over the render's log |
| FieldApplications.FindProductOther | src/contexts/AppContext.tsx:319 | setting the stock of one id leaves the lookup of any other id alone |
| FieldApplications.AdjustKeepsOther | src/contexts/AppContext.tsx:290-319 | an adjustment of one product leaves the lookup of any other id alone |
| FieldApplications.AcceptedAfterOther | src/contexts/AppContext.tsx:290-306 | an adjustment of one product does not change whether one of another product is accepted |
| FieldApplications.TwoExitsAsRendered | src/pages/field/FieldApplicationsPage.tsx:175-189 | of two exits as rendered, an accepted second one is all that is written |
| FieldApplications.TwoExitsApplied | src/pages/field/FieldApplicationsPage.tsx:175-189 | two allowed exits on different products applied in turn record two movements |
| FieldApplications.ApplyAllTwo | src/pages/field/FieldApplicationsPage.tsx:175-189 | two requests applied in turn are the second applied to the first's result |
| FieldApplications.SaveNewTwoLines | src/pages/field/FieldApplicationsPage.tsx:175-192 | as written, a new completed application of two allowed lines on different products keeps only the second exit: the first product keeps its stock and one movement is recorded, where the intended save records two |
| FieldApplications.SaveEditLosesReversal | src/pages/field/FieldApplicationsPage.tsx:133-166 | as written, a changed completed edit whose last exit is allowed loses the reversal: the products are that exit's over the render's, and the old movements all stay |
| FieldApplications.SaveUnchangedEdit | src/pages/field/FieldApplicationsPage.tsx:121-132 | an edit of a missing application, or one that changes no compared field, changes nothing |
| FieldApplications.SaveEditKeepsStock | src/pages/field/FieldApplicationsPage.tsx:133-166 | an edit that changes neither mix, status, date, operator nor plot leaves products and movements alone |
| FieldApplications.SaveThenDelete | src/pages/field/FieldApplicationsPage.tsx:173-258 | saving a new completed application and deleting it gives every product its stock back and leaves the old movements |
| FieldApplications.SaveNewStats | src/pages/field/FieldApplicationsPage.tsx:191-266 | a new application adds one to the count and its area and cost, NaN as 0, to the totals |
| FieldApplications.FilteredSpec | src/pages/field/FieldApplicationsPage.tsx:268-285 | the list keeps order and holds exactly the applications meeting search, date bounds, status, plot, operator and product |
| FieldApplications.NoFiltersShowAll | src/pages/field/FieldApplicationsPage.tsx:268-285 | with the filters a fresh page starts with, every application is shown |
| FieldApplications.UndoAll | src/pages/field/FieldApplicationsPage.tsx:244-252 | the loop over the copy of the products computes ReverseAll |
| FieldApplications.FieldApplicationsPage.constructor | src/pages/field/FieldApplicationsPage.tsx:18-48 | a blank form dated today, an empty line editor, nothing edited, the form closed |
| FieldApplications.FieldApplicationsPage.PrefillArea | src/pages/field/FieldApplicationsPage.tsx:52-56 | an empty area takes the selected plot's area; otherwise nothing changes |
| FieldApplications.FieldApplicationsPage.AddProductToMix | src/pages/field/FieldApplicationsPage.tsx:58-95 | an accepted line is appended and the editor cleared; a refused one changes nothing |
| FieldApplications.FieldApplicationsPage.RemoveProductFromMix | src/pages/field/FieldApplicationsPage.tsx:97-102 | the mix becomes RemoveIndex of the old one |
| FieldApplications.FieldApplicationsPage.ResetForm | src/pages/field/FieldApplicationsPage.tsx:199-215 | a blank form, an empty editor, nothing edited |
| FieldApplications.FieldApplicationsPage.ReverseMovements | src/pages/field/FieldApplicationsPage.tsx:241-255 | the store's ledger becomes DeleteApp of the old one |
| FieldApplications.FieldApplicationsPage.IssueExits | src/pages/field/FieldApplicationsPage.tsx:175-189 | the store's ledger becomes ApplyAllAsRendered of the requests: each call reads the handler's render, so the last accepted exit's write wins |
| FieldApplications.FieldApplicationsPage.DeleteApplication | src/pages/field/FieldApplicationsPage.tsx:239-260 | a refusal changes nothing; a confirmed deletion reverses the movements, drops the application and logs it |
| FieldApplications.FieldApplicationsPage.Submit | src/pages/field/FieldApplicationsPage.tsx:106-197 | without a plot or with an empty mix nothing changes; otherwise the lists become SaveAsWritten's and the form is reset and closed |
| FieldApplications.FieldApplicationsPage.Restock | src/pages/field/FieldApplicationsPage.tsx:133-166 | when a stock field changed, the old movements are undone and then the new exits issued as rendered, so an accepted exit overwrites the undo; otherwise nothing |
| FieldApplications.FieldApplicationsPage.SaveEdit | src/pages/field/FieldApplicationsPage.tsx:121-171 | the lists become SaveAsWritten's for the edited id |
| FieldApplications.FieldApplicationsPage.SaveNew | src/pages/field/FieldApplicationsPage.tsx:173-193 | the lists become SaveAsWritten's for a new application |
| PropertiesPage.Find | src/pages/properties/PropertiesPage.tsx:87-129 | the position found is where the marker first occurs; none when it does not occur |
| PropertiesPage.FindContains | src/pages/properties/PropertiesPage.tsx:87-129 | the marker is found exactly when the URL contains it |
| PropertiesPage.StoragePathSpec | src/pages/properties/PropertiesPage.tsx:87-129 | a storage path is derived only from a URL containing the bucket marker, and is never empty |
| PropertiesPage.PathCandidatesSpec | src/pages/properties/PropertiesPage.tsx:87-129 | the candidates are exactly the storage paths of the given attachments |
| PropertiesPage.PathsToDeleteSpec | src/pages/properties/PropertiesPage.tsx:86-88 | the paths removed are duplicate-free, non-empty, and exactly those of the queued attachments |
| PropertiesPage.AreaDefaultsToZero | src/pages/properties/PropertiesPage.tsx:96-146 | an unparseable or empty area is saved as 0, a parseable one as its value |
| PropertiesPage.SavedPropertiesSpec | src/pages/properties/PropertiesPage.tsx:101-109 | an edit rewrites only the records with the edited id, keeping the count; a new property goes first under the clock's id |
| PropertiesPage.Uploaded | src/pages/properties/PropertiesPage.tsx:60-80 | one attachment per pending file |
| PropertiesPage.UploadedSpec | src/pages/properties/PropertiesPage.tsx:61-79 | each uploaded attachment carries a fresh id, its file's name, type and size, and the public URL of the storage name `<property id>/<clock>-<file name>` |
| PropertiesPage.SavedPlotsSpec | src/pages/properties/PropertiesPage.tsx:142-156 | every new or rewritten plot belongs to the selected property; an edit changes only the edited plot; a new plot goes first |
| PropertiesPage.CascadeSpec | src/pages/properties/PropertiesPage.tsx:135-136 | deleting a property keeps exactly the other properties and the plots not on it, in order |
| PropertiesPage.FindAttachment | src/pages/properties/PropertiesPage.tsx:245-266 | the attachment found is in the form with the id; none when none has it |
| PropertiesPage.NewPending | src/pages/properties/PropertiesPage.tsx:234-238 | one pending entry per added file |
| PropertiesPage.RemoveOneAttachment | src/pages/properties/PropertiesPage.tsx:251 | with unique ids, removing a present attachment drops exactly that one |
| PropertiesPage.PropertiesView.constructor | src/pages/properties/PropertiesPage.tsx:20-47 | every form closed and blank, nothing pending or queued |
| PropertiesPage.PropertiesView.OpenNewProperty | src/pages/properties/PropertiesPage.tsx:178-185 | the property form opens blank with nothing pending or queued |
| PropertiesPage.PropertiesView.EditProperty | src/pages/properties/PropertiesPage.tsx:328-342 | the form is filled from the property, areas as text, and opened for its id |
| PropertiesPage.PropertiesView.UploadPending | src/pages/properties/PropertiesPage.tsx:60-80 | without a failure, one attachment per pending file, in order; the first failure stops the submit |
| PropertiesPage.PropertiesView.SaveProperty | src/pages/properties/PropertiesPage.tsx:94-109 | the store becomes Submitted of the old one |
| PropertiesPage.PropertiesView.SubmitProperty | src/pages/properties/PropertiesPage.tsx:51-122 | a failed upload changes only the uploading flag; otherwise the queue's paths are removed, the record saved with kept then uploaded attachments, and the form reset |
| PropertiesPage.PropertiesView.CloseAfterSave | src/pages/properties/PropertiesPage.tsx:111-120 | the form closes and resets, nothing pending or queued, not uploading |
| PropertiesPage.PropertiesView.DeleteProperty | src/pages/properties/PropertiesPage.tsx:124-140 | without the property or confirmation nothing changes; otherwise its storage paths go, the property and its plots are removed and the removal logged |
| PropertiesPage.PropertiesView.OpenNewPlot | src/pages/properties/PropertiesPage.tsx:400-406 | the plot form opens for the property with its main crop |
| PropertiesPage.PropertiesView.EditPlot | src/pages/properties/PropertiesPage.tsx:435-440 | the plot form opens filled from the plot, for its property |
| PropertiesPage.PropertiesView.SubmitPlot | src/pages/properties/PropertiesPage.tsx:142-160 | the plots become SavedPlots for the selected property, the save is logged and the form closes blank |
| PropertiesPage.PropertiesView.DeletePlot | src/pages/properties/PropertiesPage.tsx:162-168 | without the plot or confirmation nothing changes; otherwise exactly that plot goes and the removal is logged |
| PropertiesPage.PropertiesView.AddFiles | src/pages/properties/PropertiesPage.tsx:233-240 | the new entries join the pending list at its end, and the shown count grows by the number of files |
| PropertiesPage.PropertiesView.RemovePending | src/pages/properties/PropertiesPage.tsx:241-243 | the pending entries with the id go |
| PropertiesPage.PropertiesView.RemoveExisting | src/pages/properties/PropertiesPage.tsx:244-253 | the attachment leaves the form and, when it was there, joins the deletion queue |
| PropertiesPage.PropertiesView.UpdatePending | src/pages/properties/PropertiesPage.tsx:254-264 | the file and preview of the pending entry with the id are replaced |
| PropertiesPage.PropertiesView.UpdateExisting | src/pages/properties/PropertiesPage.tsx:265-279 | a saved attachment is queued for deletion and leaves the form, and the edited file becomes one new pending entry; an unknown id changes nothing |
| PropertiesPage.EditedExistingIsReplaced | src/pages/properties/PropertiesPage.tsx:265-267 | the editor routes to the existing-file handler exactly when the page's lookup finds the attachment |
| PropertiesPage.RemoveExistingMoves | src/pages/properties/PropertiesPage.tsx:244-253 | a moved attachment leaves the form and enters the queue; the form loses exactly one entry |
| FinancePage.AllCategoriesNotFixed | src/pages/finance/FinancePage.tsx:38-48 | 'Todas' is not one of the fixed categories |
| FinancePage.CategoriesInUse | src/pages/finance/FinancePage.tsx:48 | the mapped categories are exactly the ones some transaction is filed under |
| FinancePage.MenuValuesSpec | src/pages/finance/FinancePage.tsx:48 | the menu values are 'Todas', the fixed categories and the ones in use, each once when no transaction uses 'Todas' |
| FinancePage.CategoriesSpec | src/pages/finance/FinancePage.tsx:48 | the menu is sorted and holds exactly 'Todas', every fixed category and every category in use, each once |
| FinancePage.FormCategoriesSpec | src/pages/finance/FinancePage.tsx:49 | the form's menu is the page's menu without 'Todas', still sorted, and always offers 'Outros' |
| FinancePage.BeforeIsStrictOrder | src/pages/finance/FinancePage.tsx:63-70 | every sort key gives a strict order |
| FinancePage.ShownSpec | src/pages/finance/FinancePage.tsx:51-70 | the list is a permutation of the matching transactions, holds exactly them, and is sorted by the chosen key |
| FinancePage.ShownOrder | src/pages/finance/FinancePage.tsx:63-70 | what each order means for neighbours in the list (newest, oldest, largest, smallest amount, description), and that an unknown key keeps every order |
| FinancePage.DefaultFiltersMatchAll | src/pages/finance/FinancePage.tsx:16-62 | with the opening controls every transaction matches |
| FinancePage.SumFilterCons | src/pages/finance/FinancePage.tsx:132-135 | a transaction in front adds its amount to a filtered sum exactly when it passes the filter |
| FinancePage.SummaryPrepend | src/pages/finance/FinancePage.tsx:132-135 | a transaction in front changes each card by its own amount |
| FinancePage.BalanceIsSignedSum | src/pages/finance/FinancePage.tsx:132-134 | the balance is the signed sum of the list, income adding and expense subtracting |
| FinancePage.CardsBounds | src/pages/finance/FinancePage.tsx:132-135 | with non-negative amounts income, expense and pending are non-negative and pending is at most the total |
| FinancePage.IncomeAndExpenseMakeTotal | src/pages/finance/FinancePage.tsx:132-133 | when every transaction is income or expense the two cards make up the total |
| FinancePage.ExpenseOccurs | src/pages/finance/FinancePage.tsx:137-141 | a category that occurs among the shown expenses is the category of a shown expense |
| FinancePage.OccursAsExpense | src/pages/finance/FinancePage.tsx:137-141 | and conversely |
| FinancePage.ExpenseByCategorySpec | src/pages/finance/FinancePage.tsx:137-141 | one bar per category of a shown expense, each the sum of that category's expenses, the bars adding up to the expense card |
| FinancePage.MarginBounds | src/pages/finance/FinancePage.tsx:349 | with non-negative amounts the margin is at most 100, exactly 100 with income and no expense, and not positive with a negative balance |
| FinancePage.RatioBounds | src/pages/finance/FinancePage.tsx:349 | a balance at most the income is at most 100 percent of it, exactly 100 when equal, negative when negative |
| FinancePage.EnteredAmount | src/pages/finance/FinancePage.tsx:199 | a typed amount is held masked and reads back as its digits in cents |
| FinancePage.SubmitGuard | src/pages/finance/FinancePage.tsx:84-85 | nothing is saved exactly when the parsed amount is NaN, zero or negative; the blank form never saves; a masked amount saves exactly when its digits are not all zero |
| FinancePage.SubmitCreates | src/pages/finance/FinancePage.tsx:90-93 | a new transaction goes in front with the clock's id and the parsed amount, and its kind's activity is logged |
| FinancePage.SubmitEdits | src/pages/finance/FinancePage.tsx:87-89 | an edit keeps length and ids, replaces exactly the records with the edited id, changes nothing for an unknown id, and logs the update |
| IdLists.Find | src/pages/finance/FinancePage.tsx:100 | `list.find(x => x.id === id)`: the element found is in the list with the id, and none is found exactly when no element has it (used for plots, applications, properties and transactions) |
| FinancePage.EditRoundTrip | src/pages/finance/FinancePage.tsx:87-88 | saving the form of a stored transaction without touching it leaves the list unchanged |
| FinancePage.DeleteSpec | src/pages/finance/FinancePage.tsx:100-106 | without confirmation or a stored id nothing changes; a confirmed delete keeps exactly the transactions without the id, in order |
| FinancePage.DeleteUndoesCreate | src/pages/finance/FinancePage.tsx:90-103 | deleting a transaction just created under a fresh id restores the list |
| FinancePage.FinancePageView.constructor | src/pages/finance/FinancePage.tsx:16-36 | the opening controls, closed form and panel, the blank form |
| FinancePage.FinancePageView.ResetFilters | src/pages/finance/FinancePage.tsx:72-80 | the controls go back to their opening values, nothing else changes |
| FinancePage.FinancePageView.OpenNew | src/pages/finance/FinancePage.tsx:168 | the blank form opens for a new transaction |
| FinancePage.FinancePageView.OpenEdit | src/pages/finance/FinancePage.tsx:409 | the form opens holding the transaction, for its id |
| FinancePage.FinancePageView.Enter | src/pages/finance/FinancePage.tsx:190-245 | the form becomes Entered of the old one |
| FinancePage.FinancePageView.SubmitForm | src/pages/finance/FinancePage.tsx:82-98 | a refused amount changes nothing; otherwise the store becomes Submit's and the form closes blank |
| FinancePage.FinancePageView.DeleteTransaction | src/pages/finance/FinancePage.tsx:100-106 | the store becomes Delete of the old one |

## Left out

- Cloud sync, authentication and storage (Supabase): the upload and remove calls of the property attachments are parameters and outputs. Nothing is sent anywhere.
- File I/O of the three scripts: reading the backup, writing the export file with its Latin-1 encoding, and the console report text of the stock audit. The scripts are modelled from the parsed JSON to the text or records they produce.
- CSV downloads, `window.print`, `window.scrollTo` and the toast messages: no state of the app depends on them.
- `localeCompare` is approximated by the order of Unicode scalar values. Case folding (`toLowerCase`/`toUpperCase`) covers ASCII and Latin-1 letters only, except ß, which JavaScript upper-cases to "SS" and the model leaves as it is.
- JavaScript strings are UTF-16: a character outside the Basic Multilingual Plane (an emoji, say) has `length` 2 there and 1 here. Every length test and cut that stands for `length`, `substring` or `slice` (the OCR parser's `length > 5` and `substring(0, 50)`, among others) counts such a character once.
- Locale formatting (`toLocaleString`, `toLocaleDateString`, `Intl.NumberFormat`) is left out. Where a page shows a formatted date, the model keeps the date and not its text.
- `parseFloat` does not accept "Infinity". Number-to-string gives the exact decimal of a terminating real, with no exponent form and no binary rounding.
- React's batching of state updates is not modelled across handlers: separate handlers run one after another, each on the state the previous one left. Within one handler, repeated setter calls are modelled as written: each reads the lists of the handler's render and the last write wins (`AppContext.AdjustAsRendered`, `FieldApplications.ApplyAllAsRendered`; see Findings).
- The key order of `Object.entries` on keys that look like integers is not modelled. Grouped totals are kept in first-seen order.
- Chart geometry (bar heights, SVG paths) is left out. The data fed to the charts is modelled.
- The image editor's crop, rotate and canvas pipeline is left out. The list of saved images and the editor's state are modelled.
- Date parsing (`new Date(...)`) and the clock are parameters. So are `Math.random` ids and `URL.createObjectURL` previews (`idOf`, `previewOf`).
- BulkAuditForm's XML (NF-e) upload, `handleFileUpload` (src/pages/products/components/BulkAuditForm.tsx:148-206), is left out: it reads a file through the browser's DOM parser. The expiry-date highlight (`isExpired`) of the same form is also left out.
- FieldApplications' clone and edit prefills of the form (src/pages/field/FieldApplicationsPage.tsx:217-237) and its weather block are left out.
- MigrateFinance.Clean: `JSON.stringify` drops keys whose value is undefined. The model keeps all ten keys, holding `Undefined` where the backup had none.
- ExportExcel.LineColumns: the proof needs unit, stock, weight and price to be free of ';'. The script only sanitises the name and category, so with a ';' in another field the line has more columns than the header.
- ProductsPage.EditRoundTrip: the round trip is stated for the corrected price prefill, not for the page's own `maskValue(product.price)`, which `ProductsPageView.OpenEdit` models and under which the price shrinks (EditAsWrittenShrinks, Findings).
- CollaboratorsPage.EditRoundTrip: the round trip is stated for the corrected salary prefill, not for the page's own `maskValue(c.salary)`, which `CollaboratorsView.OpenEdit` models (Findings).
- FieldApplications.SaveNewIs: states the intended save (`Save`), whose exits apply in turn; the page's handler as written is `SaveAsWritten`, where only the last allowed exit is kept (Findings).
- FieldApplications.SaveEditIs: states the intended save of an edit, whose re-issued exits apply to the undone stock; as written an allowed exit overwrites the undo (`SaveEditLosesReversal`, Findings).
- FieldApplications.SaveNew: 'one tagged exit per line' holds for the intended save only; as written a completed application of several allowed lines keeps only the last line's exit and movement (`SaveNewTwoLines`, Findings).
- FieldApplications.SaveThenDelete: holds for the intended save; after the page's own save of several lines only the last line's exit is there to undo.
- PropertyAttachments.ShownCount: the count of files shown is a definition. No lemma relates it to the rendered grid.

## Findings

| source | as written | input that shows it | evidently intended | confidence | as-written member | corrected member |
|---|---|---|---|---|---|---|
| src/pages/products/ProductsPage.tsx:191 | the edit form prefills the price with `maskValue(product.price)`, which reads the number's digits as cents | a price of 12 is prefilled as "0,12" and saved back as 0.12; 12.5 is saved back as 1.25 | an unchanged edit saves the same price | not executed | ProductsPage.EditAsWrittenCounterexample | Format.AmountPrefillRoundTrip |
| src/pages/inventory/InventoryPage.tsx:96 | the suggested cost is set with `toFixed(2)` (line 69) and sent through `parseValue`, which deletes the dot | a suggested cost of 1.5 becomes "1.50" and is sent as 150 | the suggested cost is sent as 1.5 | not executed | InventoryPage.CostFillCounterexample | InventoryPage.CostFillRoundTrip |
| src/pages/field/FieldApplicationsPage.tsx:175-190 | every `handleStockAdjustment` of the forEach, and the final `addActivity`, write back the `products`, `stockMovements` and `activities` of the render (AppContext.tsx:262, 319, 340) | a completed application with two lines on two stocked products debits only the second and records one movement; a changed completed edit keeps its old exits | every line is debited and recorded, and an edit first undoes the old exits | not executed | FieldApplications.SaveNewTwoLines | FieldApplications.SaveThenDelete |
| src/pages/products/ProductsPage.tsx:95-99 | the page's `addActivity` reads the same render's `activities` as the store's own entry (AppContext.tsx:262) | an accepted quick adjustment on a short log adds one entry, the page's | both entries are logged | not executed | ProductsPage.QuickAdjustLosesStoreEntry | ProductsPage.QuickAdjustedIntendedLogsBoth |
| src/pages/collaborators/CollaboratorsPage.tsx:207 | the edit button prefills the salary with `maskValue(c.salary)`, and the save divides the digits by 100 (line 41) | a salary of 3500 is prefilled as "35,00" and saved back as 35 | saving an untouched edit form keeps the salary | not executed | CollaboratorsPage.SalaryPrefillCounterexample | CollaboratorsPage.SalaryPrefillRoundTrip |

# lynvix-backend service rules, modelled in Dafny

lynvix-backend is a personal-finance REST API. Its users keep bank accounts, cards,
categories, transactions, monthly budgets and savings goals. This project models the business
rules of its service layer. The relational store becomes one `Database` object (module
`Store`). It holds one `map<Id, Record>` per table, plus the generator of fresh keys. Every
Prisma call becomes a lookup, an insert, an update or a removal on those maps. Each service
file becomes a module:

- `Transactions` models `transactions.service.ts`:
  - the filtered, paginated listing;
  - create, update and delete with their guards;
  - the status change that moves a linked account's balance.
- `Accounts` models `accounts.service.ts`: the account CRUD and the transfer between two
  accounts.
- `Reports` models `reports.service.ts`. These are pure functions over the rows of the
  transaction table:
  - the monthly summary with its top categories and top expenses;
  - the breakdowns by category and by payment method;
  - the month-by-month evolution loop.
- `Budgets` models `budgets.service.ts`: the status line with its four alert levels, and the
  budget CRUD with the one-budget-per-category-and-month rule.
- `Goals` models `goals.service.ts`: goal progress, CRUD, and contributions that complete a
  goal once its target is reached.
- `Categories` models `categories.service.ts`: visibility of own and default categories,
  unique names per parent, and the guards on update and delete.
- `Helpers` models `calculatePercentage` and `calculateGoalProgress` from `utils/helpers.ts`.
- `Ledger` holds the balance arithmetic shared by status changes and transfers.
- `Sorting` holds the `filter`/`reduce`/`sort`/`slice` vocabulary of the reports.
- `Scenarios` replays concrete client sessions.

Modelling choices:

- **Money and percentages.** Money is an exact `int` (cents). Percentages are exact `real`s.
- **Dates.** A date is a calendar day `(year, month, day)`, ordered by `Ordinal`. A month's
  report range runs from day 1 to day 31. For well-formed dates that is exactly the calendar
  month (`Common.MonthRangeExact`).
- **Service failures.** A service failure is `Failure(NotFound | Conflict | BadRequest)`, the
  404, 409 and 400 that the services throw as `AppError`.
- **Atomic writes.** Every multi-step write inside `prisma.$transaction` is one method that
  either commits all of its writes or none of them.
- **The balance invariant.** An account's balance need not equal the net effect of its PAID
  transactions: creating, editing or deleting a transaction never touches a balance, and
  neither do the opening balance or a manual edit. What status changes and transfers do keep
  is the account's *offset*. The offset is the balance minus the PAID effects and minus the
  net transfers (`Ledger.Offset`). `StatusChangeKeepsOffset` and `TransferKeepsOffsets` prove
  that it is kept. `CreatePaidShiftsOffset` shows that creating a PAID transaction shifts it.
- **Report ordering.**
  - A report's `reduce` into an object, read back with `Object.values`, is a left fold. It
    keeps keys in order of first occurrence (`GroupBy`).
  - JavaScript's stable `sort` is a stable insertion sort, largest first (`SortDesc`).
  - `slice` is `Take`.
- **Store invariant.** `Database.Valid()` is kept by every method. It says that:
  - every key is below the generator;
  - no transaction links another user's account or card;
  - budgets are unique per (owner, category, month, year);
  - categories are unique per (owner, name, parent).

Behaviour of the code that the model keeps, although a reader might expect otherwise:

- Balances are never recomputed from transactions. The code moves a balance only on a status
  change and on a transfer. So the model proves the offset invariant above, not an equality
  between balances and PAID effects.
- `updateGoal` passes its body to the store, and the validator accepts `status`, so
  `GoalPatch` carries one.
- `createTransfer` answers 400 for equal accounts and for a short balance, and 404 for an
  account that is missing or not owned. The model uses these codes, in this order.
- No code limits categories to one level of nesting, so the model does not either.
- `createBudget` checks the category (404) before uniqueness (409). The model keeps that order.
- `updateCategory` looks for a name collision only when a new name is given
  (categories.service.ts:151-165). A move under a new parent without a rename is stopped by the
  store's unique index on (userId, name, parentId) instead, the key `userId_name_parentId` that
  prisma/seed.ts:141-146 upserts on. Prisma reports that as P2002, which
  the error handler answers with 409. A new parent that does not exist fails the parent
  foreign key: P2003, answered with 400. The update never checks that the new parent is
  visible to the user.
- The listing takes `page` and `limit` straight from `parseInt` (transactions.controller.ts:16-17).
  A page below 1 with a positive limit gives a negative `skip`. Prisma refuses that with a
  validation error, which the error handler answers with 400. A limit of 0 gives an empty
  page, and `Math.ceil(total / 0)` is `Infinity` or `NaN`, which JSON writes as `null`.

## Model

| member | source | states |
|---|---|---|
| Helpers.CalculatePercentage | src/utils/helpers.ts:47-50 | 0 for a zero total; otherwise the percentage times the total equals 100 times the value |
| Helpers.PercentageOfWhole | src/utils/helpers.ts:47-50 | a non-zero total is 100% of itself |
| Helpers.PercentageAtLeast | src/utils/helpers.ts:47-50 | for a positive total, the percentage reaches a whole threshold exactly when 100·value ≥ threshold·total |
| Helpers.PercentageMonotonic | src/utils/helpers.ts:47-50 | for a fixed positive total, a larger value never gives a smaller percentage |
| Helpers.CalculateGoalProgress | src/utils/helpers.ts:55-59 | 0 for a zero target; never above 100; equals the plain percentage up to the target; exactly 100 from the target on and below 100 before it; not negative for a non-negative amount |
| Common.MonthRangeExact | src/modules/reports/reports.service.ts:8-11 | a well-formed date lies in a month's report range exactly when it is in that year and month |
| Ledger.SignedAmount | src/modules/transactions/transactions.service.ts:334-337 | the effect of a transaction is plus or minus its amount, non-negative exactly for INCOME (or a zero amount) |
| Ledger.StatusBalanceChange | src/modules/transactions/transactions.service.ts:329-368 | the increment applied on a status change is the new PAID effect minus the old one |
| Ledger.BalanceMoves | src/modules/transactions/transactions.service.ts:329-333 | a balance is written only for an edge into or out of PAID on a transaction with an account: never for the same status, never between PENDING and SCHEDULED |
| Ledger.Credit | src/modules/transactions/transactions.service.ts:339-346 | `increment` changes that one account's balance by the delta and no other account |
| Ledger.Transferred | src/modules/accounts/accounts.service.ts:55-64 | source balance = old − amount, destination = old + amount, every other account unchanged |
| Ledger.CreditTotal | src/modules/transactions/transactions.service.ts:339-346 | an increment raises the sum of all balances by exactly the delta |
| Ledger.TransferConservesTotal | src/modules/accounts/accounts.service.ts:55-64 | a transfer keeps the sum of all balances |
| Ledger.AccountsAfterStatus | src/modules/transactions/transactions.service.ts:329-368 | a status change keeps the set of accounts and moves each balance by exactly the change in that account's PAID effect |
| Ledger.StatusChangeKeepsOffset | src/modules/transactions/transactions.service.ts:316-371 | a status change moves the linked balance by exactly the change in PAID effect, so every account's offset is kept |
| Ledger.TransferKeepsOffset | src/modules/accounts/accounts.service.ts:55-79 | the two balance writes and the new transfer record change an account's balance and net transfers equally |
| Ledger.TransferKeepsOffsets | src/modules/accounts/accounts.service.ts:55-79 | after a transfer every account still exists with the same offset |
| Ledger.StatusRoundTrip | src/modules/transactions/transactions.service.ts:329-368 | non-PAID → PAID → non-PAID leaves every account exactly as it was |
| Accounts.ApplyAccountPatch | src/modules/accounts/accounts.service.ts:26-32 | a patch writes the given fields, keeps the others and never changes the owner |
| Accounts.GetAllAccounts | src/modules/accounts/accounts.service.ts:5-10 | exactly the user's active accounts, as stored |
| Accounts.GetAccountById | src/modules/accounts/accounts.service.ts:12-18 | the stored account when it exists and is the user's, otherwise 404 |
| Accounts.CreateAccount | src/modules/accounts/accounts.service.ts:20-24 | one new active account of the caller under a fresh key |
| Accounts.UpdateAccount | src/modules/accounts/accounts.service.ts:26-32 | 404 and no change unless owned; otherwise only that row is rewritten with the patch |
| Accounts.DeleteAccount | src/modules/accounts/accounts.service.ts:34-37 | 404 and no change unless owned; otherwise only that row is removed |
| Accounts.TransferCheck | src/modules/accounts/accounts.service.ts:39-53 | no failure exactly for two different owned accounts with enough balance; 404 exactly for different accounts not both owned; 400 exactly for equal accounts or a short balance |
| Accounts.CreateTransfer | src/modules/accounts/accounts.service.ts:39-83 | 400 for equal accounts, then 404 unless both are owned, then 400 for a short balance, each with no change; otherwise both balances move, the total is kept and exactly one transfer record is added |
| Transactions.Matching | src/modules/transactions/transactions.service.ts:66-85 | exactly the rows of the user that pass every given filter; the date range applies only with both ends |
| Transactions.Skip | src/modules/transactions/transactions.service.ts:63 | the offset is negative exactly when a page below 1 meets a positive limit, and 0 exactly on page 1 or with a zero limit |
| Transactions.TotalPages | src/modules/transactions/transactions.service.ts:131 | `ceil(total / limit)`: the least page count whose pages hold all rows; no number (JSON `null`) exactly when the limit is 0 |
| Transactions.Window | src/modules/transactions/transactions.service.ts:115-119 | `skip`/`take`: at most `limit` consecutive rows starting at `skip`, full unless the rows run out, empty past the end, order kept |
| Transactions.SortedMatching | src/modules/transactions/transactions.service.ts:115-117 | ordering by date keeps exactly the matching rows |
| Transactions.ListTransactions | src/modules/transactions/transactions.service.ts:47-134 | 400 exactly when a page below 1 meets a positive limit (a negative `skip`); otherwise page and limit default to 1 and 20, total counts all matching rows, the data is the page-th window of the matching rows newest first, only matching rows, at most `limit`; a zero limit gives no rows and no page count |
| Transactions.ApplyTransactionPatch | src/modules/transactions/transactions.service.ts:252-257 | an update never changes a transaction's owner |
| Transactions.UpdateAsWrittenLinksForeignAccount | src/modules/transactions/transactions.service.ts:224-266 | the guard as written lets user 1 link user 2's account to their own transaction, which the corrected guard refuses |
| Transactions.UpdateKeepsLinksOwned | src/modules/transactions/transactions.service.ts:176-201 | with the card and account checks of create, an update keeps every link with its owner |
| Transactions.CreatePaidShiftsOffset | src/modules/transactions/transactions.service.ts:204-216 | creating a PAID transaction on an account leaves its balance, so its offset shifts by the transaction's effect |
| Transactions.GetTransactionById | src/modules/transactions/transactions.service.ts:139-157 | the stored transaction when it exists and is the user's, otherwise 404 |
| Transactions.CreateTransaction | src/modules/transactions/transactions.service.ts:162-219 | 404 with no change unless the category is visible and the card and account, when given, are the user's; otherwise one new row; no balance changes |
| Transactions.UpdateTransaction | src/modules/transactions/transactions.service.ts:224-266 | 404 with no change unless owned and every given category, card and account is allowed; otherwise only that row gets the patch; no balance changes |
| Transactions.DeleteTransaction | src/modules/transactions/transactions.service.ts:271-288 | 404 with no change unless owned; otherwise only that row goes; no balance changes |
| Transactions.UpdateTransactionStatus | src/modules/transactions/transactions.service.ts:293-374 | 404 with no change for a missing or foreign row; otherwise the status and the linked balance change together by the edge's signed amount, and only the caller's accounts change |
| Sorting.InsertDesc | src/modules/reports/reports.service.ts:47 | inserting adds exactly one element, at the front or after the old head |
| Sorting.InsertDescSorted | src/modules/reports/reports.service.ts:47 | inserting keeps a descending sequence descending |
| Sorting.InsertDescStable | src/modules/reports/reports.service.ts:47 | the inserted element goes in front of every element of its own weight, and their order is kept |
| Sorting.SortDesc | src/modules/reports/reports.service.ts:47 | the result is descending by the weight and a permutation of the input |
| Sorting.SortDescStable | src/modules/reports/reports.service.ts:47 | the sort is stable: the elements of each weight keep their input order |
| Sorting.Filter | src/modules/reports/reports.service.ts:27 | exactly the elements that satisfy the predicate, never more than the input |
| Sorting.FilterCounts | src/modules/reports/reports.service.ts:27 | a kept element keeps its multiplicity and a dropped one has none |
| Sorting.FilterConcat | src/modules/reports/reports.service.ts:27 | filtering a concatenation filters each part in order |
| Sorting.Take | src/modules/reports/reports.service.ts:48 | `slice(0, k)`: a prefix of length k, or all of a shorter input |
| Sorting.SortKeepsSum | src/modules/reports/reports.service.ts:46-48 | sorting does not change any sum over the elements |
| Sorting.TakeOutweighsRest | src/modules/reports/reports.service.ts:46-48 | the first k of a descending sequence are descending and outweigh everything cut off |
| Sorting.TopK | src/modules/reports/reports.service.ts:46-48 | `sort(...).slice(0, k)` holds exactly min(k, n) input elements, the prefix of the sorted input, descending, none lighter than one cut off |
| Sorting.LeftOutOfTop | src/modules/reports/reports.service.ts:46-48 | an element cut off weighs no more than any element kept |
| Reports.IncomeMinusExpense | src/modules/reports/reports.service.ts:26-34 | income plus expense is the sum of all amounts; income minus expense is the sum of signed amounts |
| Reports.AddToKeys | src/modules/reports/reports.service.ts:112-124 | a new key is appended to the accumulator and an existing key keeps its place; keys stay distinct |
| Reports.AddToLookup | src/modules/reports/reports.service.ts:125-126 | adding a row raises only its key's total by its amount and that key's count by one |
| Reports.GroupByFacts | src/modules/reports/reports.service.ts:112-128 | the grouping has distinct keys, exactly the keys that occur, each with the total and count of its rows; totals sum to the overall total and counts to the number of rows |
| Reports.GroupEntries | src/modules/reports/reports.service.ts:112-128 | every entry carries its key's total and a positive count |
| Reports.ToSharesFacts | src/modules/reports/reports.service.ts:130-134 | each report line is a group with its percentage of the overall total; totals and counts are conserved |
| Reports.BreakdownFacts | src/modules/reports/reports.service.ts:110-135 | a breakdown is sorted by total, has a line for every key that occurs, each with its total, count and percentage; totals sum to the overall total and counts to the number of rows |
| Reports.ExpensesByCategory | src/modules/reports/reports.service.ts:93-136 | one line for each category with PAID expenses in the range, largest total first, each with its total, count and share of the expense total; the totals add up to the expense total |
| Reports.ExpensesByPaymentMethod | src/modules/reports/reports.service.ts:148-185 | the same by payment method; the totals add up to the expense total |
| Reports.MethodKey | src/modules/reports/reports.service.ts:165 | a row without a payment method is filed under OTHER |
| Reports.ExpenseRowsSelected | src/modules/reports/reports.service.ts:98-108 | the breakdowns read exactly the user's PAID expenses in the range |
| Reports.SummaryByDates | src/modules/reports/reports.service.ts:14-81 | month and year come from the start date; the balance is income minus expense; at most five top categories and ten top expenses |
| Reports.SummaryTotals | src/modules/reports/reports.service.ts:14-44 | month and year come from the start date; income and expense split the PAID rows in range; balance is their difference; the category totals sum to the expense total |
| Reports.TopCategoryListFacts | src/modules/reports/reports.service.ts:49-54 | each ranked group becomes a line with its total and its percentage of the expense total |
| Reports.RankedGroups | src/modules/reports/reports.service.ts:46-54 | the ranked lines number exactly min(5, groups) and are descending |
| Reports.RankedFromGroups | src/modules/reports/reports.service.ts:46-54 | each ranked line is a group with its total and percentage |
| Reports.TopOfGroups | src/modules/reports/reports.service.ts:46-54 | for any grouping: exactly min(5, groups) lines, descending, each a group with its percentage, none lighter than a group left out |
| Reports.LeftOutIsLighter | src/modules/reports/reports.service.ts:46-48 | a group missing from the top five weighs no more than any group in it |
| Reports.TopCategories | src/modules/reports/reports.service.ts:36-54 | `topCategories`: exactly min(5, categories with expenses) lines, descending, each with its total and percentage; no category left out is heavier |
| Reports.LargestExpenses | src/modules/reports/reports.service.ts:56-66 | the ten largest of a list: exactly min(10, n), the prefix of the sorted list, descending by amount, none left out larger |
| Reports.TopExpensesOf | src/modules/reports/reports.service.ts:56-66 | `topExpenses` is the first ten of the range's PAID expenses sorted by amount |
| Reports.TopExpenses | src/modules/reports/reports.service.ts:56-66 | `topExpenses`: exactly min(10, n) of the range's n PAID expenses, the prefix of them sorted by amount, descending; none left out is larger |
| Reports.GetMonthlySummary | src/modules/reports/reports.service.ts:8-12 | the summary of that month and year: the balance is income minus expense, and the two together are the sum of the month's PAID rows |
| Reports.MonthWindow | src/modules/reports/reports.service.ts:8-11 | the monthly summary selects exactly the user's PAID rows of that calendar month |
| Reports.MonthsBack | src/modules/reports/reports.service.ts:191-195 | `setMonth(getMonth() - i)` gives a valid month exactly i months earlier |
| Reports.PointAt | src/modules/reports/reports.service.ts:190-204 | the point for step i is the month i months before now |
| Reports.PointIsSummary | src/modules/reports/reports.service.ts:197-204 | each point's income, expense and balance are those of that month's summary |
| Reports.PointsConsecutive | src/modules/reports/reports.service.ts:190-195 | consecutive points are consecutive calendar months |
| Reports.PointAtNow | src/modules/reports/reports.service.ts:190-195 | the newest point is the current month |
| Reports.GetEvolution | src/modules/reports/reports.service.ts:187-208 | exactly `months` points (none for a non-positive count), oldest first, the last one for the current month |
| Budgets.AlertFor | src/modules/budgets/budgets.service.ts:37-40 | four exclusive bands of the percentage: EXCEEDED from 100, DANGER from 90, WARNING from 70, none below |
| Budgets.StatusOf | src/modules/budgets/budgets.service.ts:30-50 | a status line keeps the category, limit and spent amount; remaining + spent = limit; the percentage is 0 for a zero limit and spent·100/limit otherwise; the alert is that percentage's band |
| Budgets.StatusMeaning | src/modules/budgets/budgets.service.ts:30-49 | remaining + spent = limit; with a positive limit: EXCEEDED iff spent ≥ limit, DANGER iff 90% ≤ spent < 100%, WARNING iff 70% ≤ spent < 90%, none below 70%; a zero limit gives 0% and no alert |
| Budgets.AlertMonotonic | src/modules/budgets/budgets.service.ts:36-39 | for a fixed positive limit the alert level never drops as spending grows |
| Budgets.AlertExamples | src/modules/budgets/budgets.service.ts:36-39 | a limit of 100 spent at 65, 75, 95 and 105 gives none, warning, danger and exceeded |
| Budgets.OrNow | src/modules/budgets/budgets.service.ts:9-10 | an absent or zero month or year falls back to the clock's |
| Budgets.GetBudgetStatus | src/modules/budgets/budgets.service.ts:27-51 | one status line for each of the user's budgets of the requested (or current) month and year |
| Budgets.CreateBudget | src/modules/budgets/budgets.service.ts:53-85 | 404 unless the category is visible, then 409 if the user has a budget for it that month, both with no change; otherwise one new budget with nothing spent |
| Budgets.ApplyBudgetPatch | src/modules/budgets/budgets.service.ts:93-99 | an update never changes the owner, category, month, year or spent amount |
| Budgets.UpdateBudget | src/modules/budgets/budgets.service.ts:87-100 | 404 with no change unless owned; otherwise only that budget gets the patch |
| Budgets.DeleteBudget | src/modules/budgets/budgets.service.ts:102-109 | 404 with no change unless owned; otherwise only that budget goes |
| Goals.ViewOf | src/modules/goals/goals.service.ts:18-21 | the attached progress is at most 100, not negative, and exactly 100 once the target is reached |
| Goals.GetAllGoals | src/modules/goals/goals.service.ts:6-22 | exactly the user's goals, each with its progress |
| Goals.GetGoalById | src/modules/goals/goals.service.ts:24-37 | the goal with its progress when it is the user's, otherwise 404 |
| Goals.CreateGoal | src/modules/goals/goals.service.ts:39-47 | one new IN_PROGRESS goal of the caller |
| Goals.ApplyGoalPatch | src/modules/goals/goals.service.ts:55-61 | an update never changes the owner |
| Goals.UpdateGoal | src/modules/goals/goals.service.ts:49-62 | 404 with no change unless owned; otherwise only that goal gets the patch |
| Goals.DeleteGoal | src/modules/goals/goals.service.ts:64-71 | 404 with no change unless owned; otherwise only that goal goes |
| Goals.Contributed | src/modules/goals/goals.service.ts:90-106 | the current amount rises by exactly the contribution; COMPLETED once it reaches the target, otherwise the status is kept |
| Goals.CompletionMatchesProgress | src/modules/goals/goals.service.ts:98-106 | after a contribution, 100% progress means COMPLETED, and a goal not completed shows less than 100% |
| Goals.ContributionKeepsUnbacked | src/modules/goals/goals.service.ts:81-96 | the goal and the contribution table grow by the same amount, so current minus contributed total is kept for every goal |
| Goals.ContributeToGoal | src/modules/goals/goals.service.ts:73-109 | 404 with no change unless owned; otherwise exactly one contribution (dated as given or now) and the goal raised and possibly completed |
| Categories.GetAllCategories | src/modules/categories/categories.service.ts:28-58 | exactly the categories the user can see: their own and the default ones |
| Categories.GetCategoryById | src/modules/categories/categories.service.ts:63-80 | the category when it is the user's or default, otherwise 404 |
| Categories.CreateCategory | src/modules/categories/categories.service.ts:85-132 | 409 when the user already has that name under that parent, then 404 for a parent the user cannot see, both with no change; otherwise one new non-default category of the caller |
| Categories.ApplyCategoryPatch | src/modules/categories/categories.service.ts:167-175 | an update never changes the owner or the default flag |
| Categories.ConflictIffNameTaken | src/modules/categories/categories.service.ts:151-165 | the service's own test and the unique index on (userId, name, parentId) together reject an update exactly when another category has the updated (owner, name, parent) |
| Categories.MoveWithoutRenameCaughtByIndex | src/modules/categories/categories.service.ts:151-175 | moving "Food" under "Home", which already holds a "Food", passes the service's test; the unique index rejects it, as the write would break uniqueness |
| Categories.UpdateKeepsNamesUnique | src/modules/categories/categories.service.ts:151-175 | an update that collides with no other category keeps every (owner, name, parent) unique |
| Categories.UpdateCategory | src/modules/categories/categories.service.ts:137-178 | 404 unless the category is the user's and not default; 409 when another category has the updated (owner, name, parent), from the service's test or the store's unique index; then 400 for a new parent that does not exist; all with no change; otherwise only that category gets the patch |
| Categories.DeleteCategory | src/modules/categories/categories.service.ts:183-222 | 404 unless the user's and not default, then 400 while any transaction uses it or any category sits under it, all with no change; otherwise only that category goes |
| Scenarios.TransferScenario | src/modules/accounts/accounts.service.ts:39-83 | accounts of 100 and 0: a transfer of 40 leaves 60 and 40, and one of 1000 is refused with 400 |
| Scenarios.StatusScenario | src/modules/transactions/transactions.service.ts:293-374 | a PENDING expense of 50 on an account of 200: PAID leaves 150, back to PENDING restores 200 |
| Scenarios.SummaryScenario | src/modules/reports/reports.service.ts:14-34 | PAID income 500, PAID expense 300 and PENDING expense 100 give income 500, expense 300, balance 200 |

## Left out

- Authentication and users: password hashing, JWT tokens, refresh-token expiry and the CPF check depend on foreign libraries and the clock. Every service takes the authenticated user id as a parameter.
- HTTP plumbing: routes, controllers, CORS, rate limiting and the mapping from `AppError` to a response are not modelled. A failure is just its status code.
- Validators: their constraints become `requires` clauses. These are positive amounts, budget month 1..12 and year 2020..2100, positive limits and targets, and category names of at least two characters.
- The free-text `search` filter of the transaction listing is not modelled. It needs case-insensitive substring matching on descriptions and notes, which are not modelled either.
- Names, descriptions, notes, icons, colours, tags, recurrence and installments are not modelled. No modelled rule reads them.
- Result ordering that only the store decides is not modelled: `orderBy: name`, `createdAt` and the date of contributions. Neither are the related rows a query `include`s (the category name of a report line, the latest five contributions of a goal).
- Dates: the time of day, JavaScript `Date` overflow and `new Date(year, month, 0)` are not modelled. A month range runs from day 1 to day 31.
- Reports.GetEvolution: the `MMM/yy` label in Portuguese is not modelled. `setMonth` is modelled without day-of-month overflow, so a point is always the calendar month exactly i months back.
- The card invoice (`cards.service.ts`) is not part of this model. Its window depends on `Date` normalisation.
- Seed and maintenance scripts are not modelled. They are one-off console programs.
- Concurrency: isolation of `prisma.$transaction` and the race between the balance check and the transfer are not modelled. Each service method is one sequential, all-or-nothing step.
- Number precision: `Number(decimal)` conversions and float rounding are not modelled. Arithmetic is exact.
- Budget `spent` is a stored field. No modelled code recomputes it.
- The schema's referential actions are not modelled. For example, deleting an account, a goal or a category leaves the rows that refer to it untouched. As a result, `updateTransactionStatus` can meet a link to an account that no longer exists. The model then answers 404 and rolls the status write back, as the failing `increment` inside the transaction block would.
- Card CRUD (`cards.service.ts`) is not part of this model. Cards appear only as the rows a transaction may link to.
- Transactions.ListTransactions: requires a non-negative limit. A negative `take` makes Prisma read backwards from the end of the ordering, which is not modelled. A `NaN` from `parseInt` is not modelled either.
- Categories.UpdateCategory: the unique index follows PostgreSQL, where two NULL parents never collide. A change that leaves the category at the top level is therefore guarded by the service's own test alone; under the store invariant that test still catches every collision there (`ConflictIffNameTaken`).

## Findings

| source | as written | input that shows it | evidently intended | confidence | as-written member | corrected member |
|---|---|---|---|---|---|---|
| src/modules/transactions/transactions.service.ts:224-266 | `updateTransaction` checks only the new category; a given `bankAccountId` or `creditCardId` is written without the ownership checks `createTransaction` makes at lines 176-201 | user 1 patches their own transaction with `bankAccountId` of an account owned by user 2; a later status change to PAID then moves user 2's balance | the same card and account ownership checks as on create (404 otherwise) | high, not executed | Transactions.UpdateAsWrittenLinksForeignAccount | Transactions.UpdateTransaction |

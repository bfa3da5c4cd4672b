# Personal finance tracker — verified model of the handlers and UI rules

This project models the core of a personal finance tracker: a web application where a signed-in
user keeps bank accounts, records income and expense transactions on them, sets monthly budgets
per spending category and saves towards goals. The model covers:

- the five HTTP handlers, run against an in-memory store (`Store.Db`) that replaces the database:
  - `/api/transactions`: paged listing; creation, which also moves the account balance;
  - `/api/accounts`: listing with transaction counts; creation;
  - `/api/budgets`: listing with this month's spend; creation, with one budget per category;
  - `/api/goals`: listing with progress, in deadline order; creation;
  - `/api/dashboard`: the monthly summary, the ten latest transactions, budget and goal figures,
    and the 30-day cash-flow series built by a loop.
- the shared vocabulary: the category table and the relative-date wording (`Types`);
- four UI components and their decision rules:
  - the budget status badge (`BudgetProgress`);
  - the clamped progress bar (`ProgressBar`);
  - the savings-goal card and its quick-add buttons (`SavingsGoalCard`);
  - the expanding quick-action menu (`QuickActions`).

Money is an `int` (a count of the smallest currency unit), percentages are `real`, and instants
are `int` milliseconds. The signed-in user is a `Session`, which has an optional user id. An
absent or empty id is answered with 401. Every handler returns a `Response`, which is a success
status with a body, or an error status with the JSON `error` message.

The store holds four record sequences and a counter for fresh ids. Its invariant
(`Store.Consistent`) says:

- account ids are distinct;
- every transaction is on an existing account;
- every balance equals its opening balance plus the signed sum of the account's transactions;
- each user has at most one budget per category;
- no budget amount or goal target is zero.

Every creating handler preserves this invariant. A GET handler reads the store and changes nothing.

The dashboard's cash-flow chart starts from zero: each point's balance is the signed sum of the
caller's transactions up to that day, without the accounts' opening balances. Its last point is
therefore the summary's total balance minus the opening balances of the caller's accounts
(`DashboardRoute.ClosingBalanceIgnoresOpening`). The two figures differ whenever an account was
opened with a non-zero balance.

The clock and the calendar are parameters:

- `now` is the current instant.
- The dashboard's month runs from `monthStart` (00:00:00.000 on day 1) to `monthEnd`
  (23:59:59.999), both inclusive.
- The budgets listing uses its own window `[monthFrom, monthTo]`. That route keeps the current
  time of day on both ends.
- Both routes compute the end of the window with `setMonth(getMonth() + 1)` followed by
  `setDate(0)`. `setMonth` keeps the day of the month, so on a day the next month lacks, the
  date overflows into the month after. On 31 January, for example, it gives 3 March, and
  `setDate(0)` then gives 28 February. On those days (29–31 January outside leap years,
  30–31 January in leap years, and 31 March, May, August and October), the window ends on the
  last day of the following month. On every other day it ends on the last day of the current
  month. The windows are parameters here, so the model takes whatever bounds those calls give.
- The cash flow uses `todayStart`, today's midnight. Day `k` of the chart (0 ≤ k < 30) starts at
  `todayStart − (29 − k)·86400000`.

## Model

| member | source | states |
|---|---|---|
| Records.Caller | src/app/api/transactions/route.ts:10-12 | a handler acts for a user exactly when the session carries a non-empty user id |
| Types.CategoryTableTotal | src/types/index.ts:40-64 | the category table covers all 20 categories, each exactly once |
| Types.CategoryTypeSplit | src/types/index.ts:40-64 | exactly the five categories SALARY…OTHER_INCOME are INCOME and the other fifteen are EXPENSE |
| Types.DiffDays | src/types/index.ts:106-108 | the day difference is the floor of the elapsed time over one day: `r·DAY ≤ now − d < (r+1)·DAY` |
| Types.Bucket | src/types/index.ts:110-115 | each day difference falls in exactly one branch (today, yesterday, days including negative ones, weeks 1..4, months 1..12, years ≥ 1), with the shown number the floor of the quotient |
| Types.RelativeDateNearDays | src/types/index.ts:104-116 | a date within the last day reads "Aujourd'hui", one 1–2 days old reads "Hier", and a future date falls in the "days" branch with a negative count |
| Ledger.SignedIsIncomeMinusExpense | src/app/api/dashboard/route.ts:45-51 | the signed sum of transactions is their income sum minus their expense sum |
| Ledger.BalanceStep | src/app/api/dashboard/route.ts:141-152 | moving the "dated up to" cut-off from e1 to e2 adds the income and subtracts the expense dated in (e1, e2] |
| Ledger.CappedPercentage | src/app/api/goals/route.ts:25-30 | `min(part/whole·100, 100)` is at most 100, exact below 100 and 100 once the raw share reaches 100 |
| Ledger.CappedPercentageFull | src/app/api/budgets/route.ts:53-59 | for a positive whole, the capped percentage is 100 exactly when the part reaches the whole, and it is non-negative for a non-negative part |
| Ledger.CeilDiv | src/app/api/goals/route.ts:26 | `Math.ceil(x/d)` is the least r with `x ≤ r·d` |
| Store.Credit | src/app/api/transactions/route.ts:122-130 | incrementing a balance changes the account with the given id by delta and leaves every other account as it was |
| Store.CreditKeepsBalances | src/app/api/transactions/route.ts:102-130 | appending a transaction and crediting its account by the signed amount keeps every balance equal to opening plus signed sum |
| Store.RecordKeepsConsistent | src/app/api/transactions/route.ts:101-130 | recording a transaction on an existing account, with the balance move, keeps the whole invariant |
| Store.AddAccountKeepsConsistent | src/app/api/accounts/route.ts:61-69 | adding an account under a fresh id, with its balance as opening balance, keeps the invariant |
| Store.NoTransactionsOnFreshId | src/app/api/accounts/route.ts:61-69 | no transaction refers to an id the store has not yet handed out |
| Store.AccountsTotal | src/app/api/dashboard/route.ts:21 | over accounts with distinct ids, the balances add up to the opening balances plus the signed sum of the transactions on those accounts |
| TransactionsRoute.ListedOwned | src/app/api/transactions/route.ts:19-27 | a listed transaction is in the store, on an account the caller owns, and on the requested account when one is given |
| Seqs.Slice | src/app/api/transactions/route.ts:42-43 | `take: limit, skip: offset` returns the elements at positions offset…offset+limit−1, at most limit of them |
| Seqs.SliceConcat | src/app/api/transactions/route.ts:42-43 | two consecutive pages together are the page of their combined size |
| TransactionsRoute.Get | src/app/api/transactions/route.ts:10-56 | 401 without a user; otherwise limit defaults to 50 and offset to 0, `total` counts the whole filtered listing, `hasMore` holds iff offset+limit < total, and the page is the window offset…offset+limit−1 of the date-descending listing, so it holds at most limit transactions, each at most as often as it is listed |
| Sorting.SortKeepsTies | src/app/api/transactions/route.ts:39-41 | the descending sort keeps transactions with equal dates in the order the store holds them |
| TransactionsRoute.PagesCoverListing | src/app/api/transactions/route.ts:39-54 | paging with consecutive offsets yields the date-descending listing with nothing skipped or repeated |
| TransactionsRoute.Record | src/app/api/transactions/route.ts:102-110 | the stored transaction copies the body, turns an empty description into null and a missing date into now |
| TransactionsRoute.Post | src/app/api/transactions/route.ts:69-132 | 401 without a user; 400 when any required field is falsy; 404 when the account is not the caller's; errors change nothing; success (201) iff the caller is known, every field is given and the account is theirs; success appends exactly the new transaction, credits its account by the signed amount and keeps the invariant |
| TransactionsRoute.PostMovesOneBalance | src/app/api/transactions/route.ts:121-130 | the account balance rises by the amount for INCOME and falls by it for EXPENSE, and every other account is untouched |
| AccountsRoute.WithCount | src/app/api/accounts/route.ts:18-24 | the transaction count of an account is the number of transactions on it |
| AccountsRoute.Get | src/app/api/accounts/route.ts:10-30 | 401 without a user; otherwise exactly the caller's accounts, as a permutation, each with its transaction count, in createdAt-descending order |
| AccountsRoute.Opened | src/app/api/accounts/route.ts:61-69 | the new account has balance 0 and currency EUR unless given |
| AccountsRoute.Post | src/app/api/accounts/route.ts:45-71 | 401 without a user; 400 when name or type is empty; success (201) iff both are given, appending exactly one account owned by the caller and keeping the invariant |
| BudgetsRoute.WithSpend | src/app/api/budgets/route.ts:40-59 | spent is the month's EXPENSE total of the budget's category; remaining is amount − spent, unclamped; the percentage is spent/amount·100 below 100 and 100 from there on, and for a positive amount it is 100 exactly when nothing remains |
| BudgetsRoute.SpendCountsMatchingExpenses | src/app/api/budgets/route.ts:40-52 | a budget's spend is the sum, over all the caller's transactions, of the amount of each EXPENSE of its category dated inside the window, and of 0 for every other |
| BudgetsRoute.SpendBounded | src/app/api/budgets/route.ts:40-52 | with non-negative amounts, a budget's spend lies between 0 and the total expense |
| BudgetsRoute.Get | src/app/api/budgets/route.ts:10-64 | 401 without a user; otherwise exactly the caller's budgets, as a permutation, newest first, each with the spend computed over the caller's transactions in the window, remaining = amount − spent and the capped percentage of spent in amount |
| BudgetsRoute.AppendBudget | src/app/api/budgets/route.ts:94-107 | appending a budget keeps one budget per (user, category) exactly when the pair has none yet, which is what the 409 check guards |
| BudgetsRoute.Created | src/app/api/budgets/route.ts:110-117 | the new budget copies category and amount, and its period defaults to MONTHLY |
| BudgetsRoute.Post | src/app/api/budgets/route.ts:77-119 | 401 without a user; 400 on a missing category or zero amount; 409 "Budget already exists for this category" when the caller has one; errors change nothing; success (201) iff the caller is known, both fields are given and the caller has no budget in that category; success appends one budget and keeps one budget per category |
| GoalsRoute.Progress | src/app/api/goals/route.ts:24-34 | percentage is current/target·100 below 100 and 100 from there on; remaining = target − current; daysLeft is absent iff there is no deadline and is otherwise the days to the deadline rounded up; isComplete iff current ≥ target, which for a positive target is iff the percentage is 100 |
| GoalsRoute.DaysLeftSign | src/app/api/goals/route.ts:26 | the days left are positive exactly when the deadline is still ahead |
| GoalsRoute.ByDeadline | src/app/api/goals/route.ts:18-20 | a permutation ordered by deadline ascending, with the goals without a deadline last |
| GoalsRoute.UserGoals | src/app/api/goals/route.ts:14-35 | exactly the caller's goals, as a permutation, in deadline order, each with its progress |
| GoalsRoute.Get | src/app/api/goals/route.ts:8-37 | 401 without a user; otherwise the caller's goals by deadline, each with its progress at the given instant |
| GoalsRoute.Created | src/app/api/goals/route.ts:68-75 | the new goal has saved amount 0 unless given, and its deadline only when given |
| GoalsRoute.Post | src/app/api/goals/route.ts:50-78 | 401 without a user; 400 when the name is empty or the target zero; success (201) iff both are given, appending one goal and keeping the invariant |
| DashboardRoute.SummaryOf | src/app/api/dashboard/route.ts:163-170 | total balance is the sum of the caller's balances; the month's savings, income minus expenses, equal the month's signed sum |
| DashboardRoute.Recent | src/app/api/dashboard/route.ts:54-65 | at most ten of the caller's transactions (fewer only when there are fewer), newest first, none repeated more often than it occurs |
| DashboardRoute.MonthFiguresOrderFree | src/app/api/dashboard/route.ts:35-85 | the month's query has no order, and neither the summary nor any budget's figures depend on the order of the transactions it returns |
| DashboardRoute.RecentAreLatest | src/app/api/dashboard/route.ts:63-64 | a transaction left out of the recent list is dated no later than any transaction in it |
| DashboardRoute.MonthFigures | src/app/api/dashboard/route.ts:72-85 | spent is the month's EXPENSE total of the category; remaining is clamped at 0 and is 0 exactly when spent reaches the amount; the percentage is spent/amount·100 below 100 and 100 from there on and, for a positive amount, is 100 exactly when nothing remains |
| DashboardRoute.UserBudgets | src/app/api/dashboard/route.ts:67-85 | one entry per budget of the caller, in store order, with the month's figures |
| DashboardRoute.CashFlowSeries | src/app/api/dashboard/route.ts:154-160 | the series has 30 points, each tagged "actual" |
| DashboardRoute.CashFlowSteps | src/app/api/dashboard/route.ts:111-161 | 30 points on consecutive days ending today; each day's balance is the previous day's plus that day's income minus its expense |
| DashboardRoute.PointStep | src/app/api/dashboard/route.ts:114-152 | from one day to the next, the running balance moves by the later day's income minus its expense |
| DashboardRoute.CashFlowClosingBalance | src/app/api/dashboard/route.ts:140-152 | with nothing dated after today, today's balance is the signed sum of all the caller's transactions |
| DashboardRoute.ClosingBalanceIgnoresOpening | src/app/api/dashboard/route.ts:140-152 | in a consistent store, the chart's closing balance is the summary's total balance minus the caller's opening balances |
| DashboardRoute.NothingAfter | src/app/api/dashboard/route.ts:141-148 | a cut-off later than every date keeps every transaction |
| DashboardRoute.DistinctIdsFilter | src/app/api/dashboard/route.ts:17-19 | the caller's accounts keep the store's distinct ids |
| DashboardRoute.CashFlow | src/app/api/dashboard/route.ts:111-161 | the loop from 29 down to 0, querying and summing each day anew, builds exactly the 30-point series |
| DashboardRoute.Get | src/app/api/dashboard/route.ts:8-176 | 401 without a user; otherwise the caller's accounts, the summary, the recent list, the month's budget figures, the goals by deadline and the cash-flow series |
| ProgressBar.Percentage | src/components/ui/progress.tsx:12 | the width lies in [0, 100], equals value/max·100 when that lies in [0, 100], and is 100 at or above it and 0 at or below 0 |
| ProgressBar.PercentageExact | src/components/ui/progress.tsx:12 | for a positive maximum and 0 ≤ value ≤ max, the width is value/max·100 |
| ProgressBar.PercentageSaturates | src/components/ui/progress.tsx:12 | for a positive maximum, value ≥ max gives 100 and value ≤ 0 gives 0 |
| ProgressBar.PercentageMonotone | src/components/ui/progress.tsx:12 | for a positive maximum, the width never decreases as the value grows |
| ProgressBar.Defaults | src/components/ui/progress.tsx:11-19 | without props the bar is empty and uses the default colour; without a maximum, a value in [0, 100] is the width |
| BudgetProgress.Percentage | src/components/budgets/BudgetProgress.tsx:30 | the uncapped percentage p satisfies p·total = spent·100 |
| BudgetProgress.StatusOf | src/components/budgets/BudgetProgress.tsx:32-74 | exactly one status: exceeded iff p > 100, warning iff 80 ≤ p ≤ 100, approaching iff 60 ≤ p < 80, OK iff p < 60 |
| BudgetProgress.Badge | src/components/budgets/BudgetProgress.tsx:44-74 | the badge pulses exactly for an exceeded budget |
| BudgetProgress.BadgesDistinct | src/components/budgets/BudgetProgress.tsx:44-74 | the four statuses show four different badges (Dépassé, Attention, En cours, OK) |
| BudgetProgress.BarVariant | src/components/budgets/BudgetProgress.tsx:37-41 | danger iff exceeded, warning iff in the warning band, success otherwise (approaching included) |
| BudgetProgress.RemainingView | src/components/budgets/BudgetProgress.tsx:134-137 | shows \|total − spent\|, labelled "au-dessus" iff exceeded, which for a positive total is iff spent > total; otherwise it shows the true remainder |
| BudgetProgress.ExceededIffOverspent | src/components/budgets/BudgetProgress.tsx:30-32 | for a positive total, the budget is exceeded exactly when spent > total |
| BudgetProgress.SeverityMonotone | src/components/budgets/BudgetProgress.tsx:32-34 | for a fixed positive total, more spending never gives a less severe status |
| BudgetProgress.BarFullIffPercentReached | src/components/budgets/BudgetProgress.tsx:112-117 | the card's bar is full exactly when the raw percentage reaches 100 |
| SavingsGoalCard.Percentage | src/components/savings/SavingsGoalCard.tsx:33 | the percentage is current/target·100 below 100 and 100 from there on, and is non-negative for a positive target and a non-negative amount |
| SavingsGoalCard.CompletedIffReached | src/components/savings/SavingsGoalCard.tsx:33-35 | for a positive target, the goal is completed exactly when current ≥ target |
| SavingsGoalCard.ChartData | src/components/savings/SavingsGoalCard.tsx:38-41 | two slices: the saved amount and a never-negative remainder that is 0 exactly when the target is reached; together they make up the target until it is reached |
| SavingsGoalCard.View | src/components/savings/SavingsGoalCard.tsx:141-182 | the remaining row shows iff not completed (for a positive target, iff current < target); the buttons 10, 50, 100 show iff not completed and a callback is given; the badge and message show iff completed |
| SavingsGoalCard.Card.HandleQuickAdd | src/components/savings/SavingsGoalCard.tsx:43-49 | with a callback: animate and pass the amount once; without one: nothing changes |
| SavingsGoalCard.Card.ClickQuickAdd | src/components/savings/SavingsGoalCard.tsx:156-164 | a click on a shown quick-add button passes that button's amount once |
| SavingsGoalCard.Card.CompletionEffect | src/components/savings/SavingsGoalCard.tsx:52-58 | a completed goal switches the animation on |
| SavingsGoalCard.Card.AnimationTimeout | src/components/savings/SavingsGoalCard.tsx:43-58 | the timeout switches the animation off |
| QuickActions.PrimaryIndex | src/components/dashboard/QuickActions.tsx:60 | the first action whose variant is primary, or the first action when none is |
| QuickActions.SecondaryExactly | src/components/dashboard/QuickActions.tsx:61 | an action is listed as secondary exactly when it is one of the actions and its variant is secondary |
| QuickActions.SecondaryInOrder | src/components/dashboard/QuickActions.tsx:61 | the secondary list keeps the actions' original order |
| QuickActions.DefaultMenu | src/components/dashboard/QuickActions.tsx:27-52 | the default menu's primary action is "add-transaction" and its secondary actions are the other two |
| QuickActions.Menu.constructor | src/components/dashboard/QuickActions.tsx:54-58 | the menu uses the default actions when none are given and starts collapsed |
| QuickActions.Menu.CloseIconWithBackdrop | src/components/dashboard/QuickActions.tsx:135-150 | in a reachable state the close icon shows exactly when the backdrop does |
| QuickActions.Menu.ClickPrimary | src/components/dashboard/QuickActions.tsx:110-116 | with secondary actions it toggles and runs nothing; without them it runs the primary action once and leaves the menu as it was |
| QuickActions.Menu.ClickSecondary | src/components/dashboard/QuickActions.tsx:86-89 | runs that action once, then collapses, whether the menu was expanded or collapsed (its buttons stay rendered, only hidden) |
| QuickActions.Menu.ClickBackdrop | src/components/dashboard/QuickActions.tsx:144-150 | the backdrop exists only while expanded; clicking it collapses and runs nothing |

## Left out

- Authentication and the database client are replaced by a `Session` and the in-memory `Store.Db`. A failing store call (the 500 answers) is not modelled.
- `Promise.all` and async sequencing: the handlers run sequentially. The two store calls of a transaction POST are one atomic step, so concurrency and partial failure are not modelled.
- JSON and query-string coercion are not modelled. The model does not cover `parseFloat`/`parseInt`, NaN, string amounts, negative `limit`/`offset`, or the `type === 'INCOME' ? amount : -amount` applied to a string. Falsy fields are `None`, `""` or `0`.
- Floating point: money is exact integers. Division by a zero budget amount, goal target or bar maximum (Infinity/NaN) is excluded by `requires`. The store invariant guarantees it for stored records.
- Calendar arithmetic (`setDate`, `setMonth`, `setHours`), time zones and DST: the month and day windows are parameters, and a day is exactly 86400000 ms. The `toISOString` date label of each cash-flow point is replaced by the day's first instant.
- `formatCurrency`, `formatDate` and `toFixed(0)`: this is number and date formatting through `Intl`.
- Timers and animation: `setTimeout` is an explicit `AnimationTimeout` event, with no timing.
- The account name and type included with listed, created and recent transactions are not modelled: that join is presentation only.
- The transaction reference is called `bankAccountId` in the dashboard route and `accountId` elsewhere. Both are one field here.
- Sort ties: the model's sort is stable on store order (`Sorting.SortKeepsTies`), while the database leaves the order of equal keys unspecified. The dashboard's budget list, which has no `orderBy`, is in store order. Goals without a deadline are placed last, as PostgreSQL sorts NULLs in ascending order.
- TransactionsRoute.PagesCoverListing: holds because the model orders equal dates the same way on every call. The handler issues one query per page, ordered by date alone, and the database may order equal dates differently from one query to the next; two pages can then repeat or skip transactions that share a date.
- A budget conflicts with another of the same user and category only; the code compares no periods or dates, and the model follows the code.
- QuickActions.Menu.constructor: requires a non-empty action list. With an empty `actions` prop the component fails when it reads the primary action's colour, and that failure is not modelled.
- The update and delete handlers for a single transaction, and the LLM-based insights, are not part of this model.
- Presentation-only components and pages (KPI cards, charts, badges' class names, demo data) are not part of this model.

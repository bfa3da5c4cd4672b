/**
 * `GET /api/dashboard`: the caller's balance summary for the current month, the ten latest
 * transactions, budgets with this month's spend, goals with progress, and the day-by-day cash
 * flow of the last 30 days.
 */
module DashboardRoute {
  import opened Wrappers
  import opened Types
  import opened Records
  import opened Seqs
  import opened Sorting
  import opened Ledger
  import opened Store
  import opened BudgetsRoute
  import opened GoalsRoute

  datatype Summary = Summary(
    totalBalance: int, monthIncome: int, monthExpenses: int, monthSavings: int, accountsCount: nat)

  /** One day of the chart: the day's first instant, its income and expense, and the running balance at its end. */
  datatype CashPoint = CashPoint(dayStart: int, income: int, expense: int, balance: int, kind: string)

  datatype Dashboard = Dashboard(
    summary: Summary, accounts: seq<Account>, recent: seq<Transaction>,
    budgets: seq<BudgetWithSpend>, goals: seq<GoalWithProgress>, cashFlow: seq<CashPoint>)

  const RECENT_COUNT: nat := 10
  const CASH_FLOW_DAYS: nat := 30

  /** The caller's transactions: those on one of the caller's accounts. */
  function UserTransactions(accounts: seq<Account>, transactions: seq<Transaction>, user: UserId): seq<Transaction>
  {
    Filter(transactions, OnAccounts(Filter(accounts, OwnedBy(user))))
  }

  /**
   * The summary over the caller's accounts and the month's transactions `month`: the savings
   * are the month's signed sum.
   */
  function SummaryOf(mine: seq<Account>, month: seq<Transaction>): (s: Summary)
    ensures s.totalBalance == Total(mine, Balance) && s.accountsCount == |mine|
    ensures s.monthIncome == IncomeSum(month) && s.monthExpenses == ExpenseSum(month)
    ensures s.monthSavings == SignedSum(month)
  {
    SignedIsIncomeMinusExpense(month);
    var income := IncomeSum(month);
    var expenses := ExpenseSum(month);
    Summary(Total(mine, Balance), income, expenses, income - expenses, |mine|)
  }

  /** The caller's `RECENT_COUNT` latest transactions, latest first. */
  function Recent(transactions: seq<Transaction>): (r: seq<Transaction>)
    ensures |r| == if |transactions| < RECENT_COUNT then |transactions| else RECENT_COUNT
    ensures forall i, j :: 0 <= i < j < |r| ==> r[i].date >= r[j].date
    ensures multiset(r) <= multiset(transactions)
  {
    Slice(SortDesc(transactions, DateKey), 0, RECENT_COUNT)
  }

  /**
   * The month's transactions come from a query without an order, so the summary must not
   * depend on the order the store returns them in; nor does a budget's spend.
   */
  lemma MonthFiguresOrderFree(mine: seq<Account>, a: seq<Transaction>, b: seq<Transaction>, monthStart: int, monthEnd: int, budget: Budget)
    requires multiset(a) == multiset(b)
    requires budget.amount != 0
    ensures SummaryOf(mine, Filter(a, DatedWithin(monthStart, monthEnd))) == SummaryOf(mine, Filter(b, DatedWithin(monthStart, monthEnd)))
    ensures MonthFigures(budget, Filter(a, DatedWithin(monthStart, monthEnd))) == MonthFigures(budget, Filter(b, DatedWithin(monthStart, monthEnd)))
  {
    var ma, mb := Filter(a, DatedWithin(monthStart, monthEnd)), Filter(b, DatedWithin(monthStart, monthEnd));
    FilteredSumsPermutation(a, b, DatedWithin(monthStart, monthEnd));
    FilterPermutation(a, b, DatedWithin(monthStart, monthEnd));
    FilterPermutation(ma, mb, ExpenseIn(budget.category));
    TotalPermutation(Filter(ma, ExpenseIn(budget.category)), Filter(mb, ExpenseIn(budget.category)), Amount);
  }

  /** A transaction left out of the recent list is no later than any transaction in it. */
  lemma RecentAreLatest(transactions: seq<Transaction>, t: Transaction)
    requires t in transactions && t !in Recent(transactions)
    ensures forall i :: 0 <= i < |Recent(transactions)| ==> t.date <= Recent(transactions)[i].date
  {
    var ordered := SortDesc(transactions, DateKey);
    SortMembers(transactions, DateKey, t);
    var j :| 0 <= j < |ordered| && ordered[j] == t;
    var r := Recent(transactions);
    assert r == Slice(ordered, 0, RECENT_COUNT);
  }

  /**
   * One budget's figures over the month's transactions `month`: here the remaining amount is
   * clamped at zero and the percentage capped at 100.
   */
  function MonthFigures(b: Budget, month: seq<Transaction>): (w: BudgetWithSpend)
    requires b.amount != 0
    ensures w.budget == b
    ensures w.spent == CategorySpend(month, b.category)
    ensures w.remaining >= 0
    ensures w.remaining == 0 <==> w.spent >= b.amount
    ensures w.remaining > 0 ==> w.remaining == b.amount - w.spent
    ensures var raw := (w.spent as real / b.amount as real) * 100.0;
      (raw < 100.0 ==> w.percentage == raw) && (raw >= 100.0 ==> w.percentage == 100.0)
    ensures b.amount > 0 ==> (w.percentage == 100.0 <==> w.remaining == 0)
  {
    var spent := CategorySpend(month, b.category);
    var left := if b.amount - spent > 0 then b.amount - spent else 0;
    if b.amount > 0 then
      CappedPercentageFull(spent, b.amount);
      BudgetWithSpend(b, spent, left, CappedPercentage(spent, b.amount))
    else
      BudgetWithSpend(b, spent, left, CappedPercentage(spent, b.amount))
  }

  /** `budgets.map(...)` over the month's transactions, in store order. */
  function MonthBudgets(bs: seq<Budget>, month: seq<Transaction>): (ws: seq<BudgetWithSpend>)
    requires BudgetAmountsNonZero(bs)
    ensures |ws| == |bs|
    ensures forall i :: 0 <= i < |ws| ==> ws[i] == MonthFigures(bs[i], month)
  {
    if bs == [] then [] else [MonthFigures(bs[0], month)] + MonthBudgets(bs[1..], month)
  }

  /** The caller's budgets with this month's figures, in store order. */
  function UserBudgets(budgets: seq<Budget>, user: UserId, month: seq<Transaction>): (ws: seq<BudgetWithSpend>)
    requires BudgetAmountsNonZero(budgets)
    ensures var mine := Filter(budgets, BudgetOwnedBy(user));
      |ws| == |mine| && forall i :: 0 <= i < |ws| ==> mine[i].amount != 0 && ws[i] == MonthFigures(mine[i], month)
  {
    var mine := Filter(budgets, BudgetOwnedBy(user));
    assert BudgetAmountsNonZero(mine) by {
      forall i | 0 <= i < |mine| ensures mine[i].amount != 0 {
        assert mine[i] in mine;
      }
    }
    MonthBudgets(mine, month)
  }

  /** The first instant of the chart's day `k` (0 is 29 days ago, 29 is today). */
  function DayStart(todayStart: int, k: int): int
  {
    todayStart - (CASH_FLOW_DAYS - 1 - k) * DAY_MS
  }

  /** The point for the day starting at `start`, ending at `start + DAY_MS - 1`, both inclusive. */
  function PointOn(transactions: seq<Transaction>, start: int): (p: CashPoint)
  {
    var day := Filter(transactions, DatedWithin(start, start + DAY_MS - 1));
    CashPoint(start, IncomeSum(day), ExpenseSum(day),
      SignedSum(Filter(transactions, DatedUpTo(start + DAY_MS - 1))), "actual")
  }

  /** The cash-flow series of the last 30 days, oldest first. */
  function CashFlowSeries(transactions: seq<Transaction>, todayStart: int): (ps: seq<CashPoint>)
    ensures |ps| == CASH_FLOW_DAYS
    ensures forall k :: 0 <= k < |ps| ==> ps[k].kind == "actual"
  {
    seq(CASH_FLOW_DAYS, k requires 0 <= k < CASH_FLOW_DAYS => PointOn(transactions, DayStart(todayStart, k)))
  }

  /**
   * The series has 30 points on consecutive days ending today, and each day's running balance
   * is the previous day's plus that day's income minus that day's expense.
   */
  lemma CashFlowSteps(transactions: seq<Transaction>, todayStart: int, k: nat)
    requires 0 < k < CASH_FLOW_DAYS
    ensures var ps := CashFlowSeries(transactions, todayStart);
      && |ps| == CASH_FLOW_DAYS
      && ps[CASH_FLOW_DAYS - 1].dayStart == todayStart
      && ps[k].dayStart == ps[k - 1].dayStart + DAY_MS
      && ps[k].balance == ps[k - 1].balance + ps[k].income - ps[k].expense
  {
    assert DayStart(todayStart, k) == DayStart(todayStart, k - 1) + DAY_MS;
    PointStep(transactions, DayStart(todayStart, k - 1));
  }

  /** From one day to the next, the running balance moves by the later day's income minus its expense. */
  lemma PointStep(transactions: seq<Transaction>, start: int)
    ensures var next := PointOn(transactions, start + DAY_MS);
      next.balance == PointOn(transactions, start).balance + next.income - next.expense
  {
    BalanceStep(transactions, start + DAY_MS - 1, start + 2 * DAY_MS - 1);
  }

  /** Today's running balance is the signed sum of every transaction dated up to the end of today. */
  lemma CashFlowClosingBalance(transactions: seq<Transaction>, todayStart: int)
    requires forall i :: 0 <= i < |transactions| ==> transactions[i].date < todayStart + DAY_MS
    ensures CashFlowSeries(transactions, todayStart)[CASH_FLOW_DAYS - 1].balance == SignedSum(transactions)
  {
    NothingAfter(transactions, todayStart + DAY_MS - 1);
  }

  /** A cut-off later than every date keeps everything. */
  lemma {:induction false} NothingAfter(ts: seq<Transaction>, to: int)
    requires forall i :: 0 <= i < |ts| ==> ts[i].date <= to
    ensures Filter(ts, DatedUpTo(to)) == ts
  {
    if ts != [] {
      NothingAfter(ts[1..], to);
    }
  }

  /**
   * In a consistent store where nothing is dated after today, the chart's closing balance is
   * the summary's total balance less what the caller's accounts were opened with: the chart
   * counts transactions only.
   */
  lemma ClosingBalanceIgnoresOpening(
    accounts: seq<Account>, transactions: seq<Transaction>, budgets: seq<Budget>, goals: seq<Goal>,
    nextId: nat, opening: map<Id, int>, user: UserId, todayStart: int)
    requires Consistent(accounts, transactions, budgets, goals, nextId, opening)
    requires forall i :: 0 <= i < |transactions| ==> transactions[i].date < todayStart + DAY_MS
    ensures var mine := Filter(accounts, OwnedBy(user));
      && (forall i :: 0 <= i < |mine| ==> mine[i].id in opening)
      && CashFlowSeries(UserTransactions(accounts, transactions, user), todayStart)[CASH_FLOW_DAYS - 1].balance
         == Total(mine, Balance) - OpeningTotal(mine, opening)
  {
    var mine := Filter(accounts, OwnedBy(user));
    var theirs := UserTransactions(accounts, transactions, user);
    assert BalancesConsistent(mine, transactions, opening) by {
      forall i | 0 <= i < |mine| ensures mine[i] in accounts {
        assert mine[i] in mine;
      }
    }
    DistinctIdsFilter(accounts, OwnedBy(user));
    AccountsTotal(mine, transactions, opening);
    assert forall i :: 0 <= i < |theirs| ==> theirs[i].date < todayStart + DAY_MS by {
      forall i | 0 <= i < |theirs| ensures theirs[i] in transactions {
        assert theirs[i] in theirs;
      }
    }
    CashFlowClosingBalance(theirs, todayStart);
  }

  /** Filtering accounts with distinct ids keeps the ids distinct. */
  lemma {:induction false} DistinctIdsFilter(accounts: seq<Account>, p: Account -> bool)
    requires DistinctIds(accounts)
    ensures DistinctIds(Filter(accounts, p))
  {
    if accounts != [] {
      var rest := accounts[1..];
      assert DistinctIds(rest) by {
        forall i, j | 0 <= i < j < |rest| ensures rest[i].id != rest[j].id {
          assert rest[i] == accounts[i + 1] && rest[j] == accounts[j + 1];
        }
      }
      DistinctIdsFilter(rest, p);
      var tail := Filter(rest, p);
      forall k | 0 <= k < |tail| ensures tail[k].id != accounts[0].id {
        assert tail[k] in tail;
        var m :| 0 <= m < |rest| && rest[m] == tail[k];
        assert accounts[m + 1] == rest[m];
      }
      if p(accounts[0]) {
        var r := Filter(accounts, p);
        assert r == [accounts[0]] + tail;
        forall i, j | 0 <= i < j < |r| ensures r[i].id != r[j].id {
          if i > 0 {
            assert r[i] == tail[i - 1] && r[j] == tail[j - 1];
          } else {
            assert r[j] == tail[j - 1];
          }
        }
      } else {
        assert Filter(accounts, p) == tail;
      }
    }
  }

  /**
   * The loop of the handler: for `i` from 29 down to 0, the day `i` days before today,
   * each queried and summed anew.
   */
  method CashFlow(transactions: seq<Transaction>, todayStart: int) returns (points: seq<CashPoint>)
    ensures points == CashFlowSeries(transactions, todayStart)
  {
    points := [];
    var i: int := CASH_FLOW_DAYS - 1;
    while i >= 0
      invariant -1 <= i < CASH_FLOW_DAYS
      invariant |points| == CASH_FLOW_DAYS - 1 - i
      invariant forall k :: 0 <= k < |points| ==> points[k] == PointOn(transactions, DayStart(todayStart, k))
    {
      var date := todayStart - i * DAY_MS;
      var endDate := date + DAY_MS - 1;
      var dayTransactions := Filter(transactions, DatedWithin(date, endDate));
      var income := IncomeSum(dayTransactions);
      var expense := ExpenseSum(dayTransactions);
      var balance := SignedSum(Filter(transactions, DatedUpTo(endDate)));
      assert date == DayStart(todayStart, |points|);
      points := points + [CashPoint(date, income, expense, balance, "actual")];
      i := i - 1;
    }
  }

  /**
   * The handler of `GET /api/dashboard`. The month window `[monthStart, monthEnd]` is what the
   * route's date calls give: from 00:00:00.000 on the first day of the current month to
   * 23:59:59.999 on the day before the first of the month that `setMonth(getMonth() + 1)`
   * lands in. That is the last day of the current month, except on a day of the month the next
   * month lacks (31 January, 31 March, …), where the end overflows into the following month.
   * `todayStart` is today's midnight and `now` the clock reading.
   */
  method Get(db: Db, session: Session, now: int, monthStart: int, monthEnd: int, todayStart: int)
    returns (r: Response<Dashboard>)
    requires BudgetAmountsNonZero(db.budgets) && GoalTargetsNonZero(db.goals)
    ensures Caller(session).None? ==> r == Unauthorized()
    ensures Caller(session).Some? ==> r.Ok? && r.status == 200
    ensures r.Ok? ==>
      var user := Caller(session).value;
      var mine := Filter(db.accounts, OwnedBy(user));
      var theirs := UserTransactions(db.accounts, db.transactions, user);
      var month := Filter(theirs, DatedWithin(monthStart, monthEnd));
      var d := r.body;
      && d.accounts == mine
      && d.summary.totalBalance == Total(mine, Balance) && d.summary.accountsCount == |mine|
      && d.summary.monthIncome == IncomeSum(month) && d.summary.monthExpenses == ExpenseSum(month)
      && d.summary.monthSavings == SignedSum(month)
      && d.recent == Recent(theirs)
      && d.budgets == UserBudgets(db.budgets, user, month)
      && d.goals == UserGoals(db.goals, user, now)
      && d.cashFlow == CashFlowSeries(theirs, todayStart)
  {
    var caller := Caller(session);
    if caller.None? {
      return Unauthorized();
    }
    var user := caller.value;
    var accounts := Filter(db.accounts, OwnedBy(user));
    var theirs := Filter(db.transactions, OnAccounts(accounts));
    var month := Filter(theirs, DatedWithin(monthStart, monthEnd));
    var cashFlow := CashFlow(theirs, todayStart);
    r := Ok(200, Dashboard(
      SummaryOf(accounts, month), accounts, Recent(theirs),
      UserBudgets(db.budgets, user, month), UserGoals(db.goals, user, now), cashFlow));
  }
}

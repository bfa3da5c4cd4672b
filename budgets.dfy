/**
 * `GET /api/budgets` (the caller's budgets, newest first, with what was spent this month)
 * and `POST /api/budgets` (create a budget, at most one per category).
 */
module BudgetsRoute {
  import opened Wrappers
  import opened Types
  import opened Records
  import opened Seqs
  import opened Sorting
  import opened Ledger
  import opened Store

  datatype BudgetWithSpend = BudgetWithSpend(budget: Budget, spent: int, remaining: int, percentage: real)

  function BudgetCreatedKey(b: Budget): int { b.createdAt }

  /**
   * One budget's figures against `transactions` (the caller's), over the window
   * `[monthFrom, monthTo]`: `remaining` is not clamped and goes negative on overspend,
   * `percentage` is capped at 100.
   */
  function WithSpend(b: Budget, transactions: seq<Transaction>, monthFrom: int, monthTo: int): (w: BudgetWithSpend)
    requires b.amount != 0
    ensures w.budget == b
    ensures w.spent == CategorySpend(Filter(transactions, DatedWithin(monthFrom, monthTo)), b.category)
    ensures w.remaining == b.amount - w.spent
    ensures var raw := (w.spent as real / b.amount as real) * 100.0;
      (raw < 100.0 ==> w.percentage == raw) && (raw >= 100.0 ==> w.percentage == 100.0)
    ensures b.amount > 0 ==> (w.percentage == 100.0 <==> w.remaining <= 0)
  {
    var spent := CategorySpend(Filter(transactions, DatedWithin(monthFrom, monthTo)), b.category);
    if b.amount > 0 then
      CappedPercentageFull(spent, b.amount);
      BudgetWithSpend(b, spent, b.amount - spent, CappedPercentage(spent, b.amount))
    else
      BudgetWithSpend(b, spent, b.amount - spent, CappedPercentage(spent, b.amount))
  }

  /** What one transaction adds to a budget of category `c` over `[from, to]`. */
  function MatchingAmount(c: Category, from: int, to: int): Transaction -> int
  {
    (t: Transaction) => if t.txType == Expense && t.category == c && from <= t.date <= to then t.amount else 0
  }

  /**
   * A budget's spend counts exactly the EXPENSE transactions of its category dated inside the
   * window: it is the sum over all transactions of their amount where they match and 0 elsewhere.
   */
  lemma {:induction false} SpendCountsMatchingExpenses(ts: seq<Transaction>, c: Category, from: int, to: int)
    ensures CategorySpend(Filter(ts, DatedWithin(from, to)), c) == Total(ts, MatchingAmount(c, from, to))
  {
    if ts != [] {
      SpendCountsMatchingExpenses(ts[1..], c, from, to);
      var rest := Filter(ts[1..], DatedWithin(from, to));
      if DatedWithin(from, to)(ts[0]) {
        assert ([ts[0]] + rest)[1..] == rest;
        assert ([ts[0]] + Filter(rest, ExpenseIn(c)))[1..] == Filter(rest, ExpenseIn(c));
      }
    }
  }

  /** With non-negative amounts, a budget's spend lies between 0 and the total expense. */
  lemma {:induction false} SpendBounded(ts: seq<Transaction>, c: Category, from: int, to: int)
    requires forall i :: 0 <= i < |ts| ==> 0 <= ts[i].amount
    ensures 0 <= CategorySpend(Filter(ts, DatedWithin(from, to)), c) <= ExpenseSum(ts)
  {
    if ts != [] {
      SpendBounded(ts[1..], c, from, to);
    }
  }

  /** The budgets of a list of figures, in order. */
  function Budgets(ws: seq<BudgetWithSpend>): (bs: seq<Budget>)
    ensures |bs| == |ws| && forall i :: 0 <= i < |ws| ==> bs[i] == ws[i].budget
  {
    if ws == [] then [] else [ws[0].budget] + Budgets(ws[1..])
  }

  /** `budgets.map(...)`: the figures of each budget of `bs`, in order. */
  function Annotate(bs: seq<Budget>, transactions: seq<Transaction>, monthFrom: int, monthTo: int): (ws: seq<BudgetWithSpend>)
    requires BudgetAmountsNonZero(bs)
    ensures Budgets(ws) == bs
    ensures forall i :: 0 <= i < |ws| ==>
      && ws[i].spent == CategorySpend(Filter(transactions, DatedWithin(monthFrom, monthTo)), bs[i].category)
      && ws[i].remaining == bs[i].amount - ws[i].spent
      && ws[i].percentage == CappedPercentage(ws[i].spent, bs[i].amount)
  {
    if bs == [] then [] else [WithSpend(bs[0], transactions, monthFrom, monthTo)] + Annotate(bs[1..], transactions, monthFrom, monthTo)
  }

  /**
   * The handler of `GET /api/budgets`. `[monthFrom, monthTo]` is the current month as the route
   * builds it, both ends inclusive and at the current time of day: from the first of the current
   * month to `setMonth(getMonth() + 1)` followed by `setDate(0)`. That end is the current month's
   * last day, except on a day of the month the next month lacks (31 January, 31 March, …), where
   * it is the last day of the following month.
   */
  function Get(db: Db, session: Session, monthFrom: int, monthTo: int): (r: Response<seq<BudgetWithSpend>>)
    reads db
    requires BudgetAmountsNonZero(db.budgets)
    ensures Caller(session).None? ==> r == Unauthorized()
    ensures Caller(session).Some? ==> r.Ok? && r.status == 200
    ensures r.Ok? ==>
      var user := Caller(session).value;
      var spendable := Filter(db.transactions, OnAccounts(Filter(db.accounts, OwnedBy(user))));
      && multiset(Budgets(r.body)) == multiset(Filter(db.budgets, BudgetOwnedBy(user)))
      && SortedDesc(Budgets(r.body), BudgetCreatedKey)
      && (forall i :: 0 <= i < |r.body| ==>
            && r.body[i].budget.userId == user
            && r.body[i].spent == CategorySpend(Filter(spendable, DatedWithin(monthFrom, monthTo)), r.body[i].budget.category)
            && r.body[i].remaining == r.body[i].budget.amount - r.body[i].spent
            && r.body[i].budget.amount != 0
            && r.body[i].percentage == CappedPercentage(r.body[i].spent, r.body[i].budget.amount))
  {
    match Caller(session)
    case None => Unauthorized()
    case Some(user) =>
      var mine := Filter(db.budgets, BudgetOwnedBy(user));
      var ordered := SortDesc(mine, BudgetCreatedKey);
      var spendable := Filter(db.transactions, OnAccounts(Filter(db.accounts, OwnedBy(user))));
      assert forall i :: 0 <= i < |ordered| ==> ordered[i] in mine && ordered[i].amount != 0 by {
        forall i | 0 <= i < |ordered| ensures ordered[i] in mine && ordered[i].amount != 0 {
          SortMembers(mine, BudgetCreatedKey, ordered[i]);
        }
      }
      Ok(200, Annotate(ordered, spendable, monthFrom, monthTo))
  }

  /** `budget.findFirst({ where: { userId, category } })` finds something. */
  predicate HasBudget(budgets: seq<Budget>, user: UserId, c: Category)
  {
    exists i :: 0 <= i < |budgets| && budgets[i].userId == user && budgets[i].category == c
  }

  /** Appending a budget keeps one budget per (user, category) exactly when the pair has none yet. */
  lemma AppendBudget(budgets: seq<Budget>, b: Budget)
    requires OneBudgetPerCategory(budgets)
    ensures OneBudgetPerCategory(budgets + [b]) <==> !HasBudget(budgets, b.userId, b.category)
  {
    var after := budgets + [b];
    if HasBudget(budgets, b.userId, b.category) {
      var i :| 0 <= i < |budgets| && budgets[i].userId == b.userId && budgets[i].category == b.category;
      assert after[i] == budgets[i] && after[|budgets|] == b;
    }
  }

  /** The JSON body of `POST /api/budgets`. */
  datatype NewBudget = NewBudget(category: Option<Category>, amount: int, period: Option<Period>)

  /** The record `budget.create` stores; the period defaults to MONTHLY. */
  function Created(id: Id, user: UserId, body: NewBudget, now: int): (b: Budget)
    requires body.category.Some?
    ensures b.id == id && b.userId == user && b.category == body.category.value && b.amount == body.amount
    ensures b.period == if body.period.Some? then body.period.value else Monthly
    ensures b.createdAt == now
  {
    Budget(id, user, body.category.value, body.amount, body.period.GetOr(Monthly), now)
  }

  /** The handler of `POST /api/budgets`. */
  method Post(db: Db, session: Session, body: NewBudget, now: int) returns (r: Response<Budget>)
    requires db.Valid()
    modifies db
    ensures db.Valid()
    ensures Caller(session).None? ==> r == Unauthorized()
    ensures Caller(session).Some? && (body.category.None? || body.amount == 0) ==> r == Error(400, MISSING_FIELDS)
    ensures Caller(session).Some? && body.category.Some? && body.amount != 0
      && HasBudget(old(db.budgets), Caller(session).value, body.category.value)
      ==> r == Error(409, "Budget already exists for this category")
    ensures r.Error? ==> unchanged(db)
    ensures r.Ok? <==>
      Caller(session).Some? && body.category.Some? && body.amount != 0
      && !HasBudget(old(db.budgets), Caller(session).value, body.category.value)
    ensures r.Ok? ==>
      && r.status == 201
      && r.body == Created(old(db.nextId), Caller(session).value, body, now)
      && db.budgets == old(db.budgets) + [r.body]
      && db.accounts == old(db.accounts) && db.transactions == old(db.transactions) && db.goals == old(db.goals)
  {
    var user := Caller(session);
    if user.None? {
      return Unauthorized();
    }
    if body.category.None? || body.amount == 0 {
      return Error(400, MISSING_FIELDS);
    }
    if HasBudget(db.budgets, user.value, body.category.value) {
      return Error(409, "Budget already exists for this category");
    }
    var b := Created(db.nextId, user.value, body, now);
    AppendBudget(db.budgets, b);
    db.budgets := db.budgets + [b];
    db.nextId := db.nextId + 1;
    r := Ok(201, b);
  }
}

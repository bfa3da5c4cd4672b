/**
 * The money arithmetic the handlers share: sums of transaction amounts over date windows,
 * signed sums (INCOME counts +, EXPENSE counts -), the capped percentage and the day count
 * to a deadline.
 */
module Ledger {
  import opened Types
  import opened Records
  import opened Seqs

  function Amount(t: Transaction): int { t.amount }

  /** The sort key of `orderBy: { date: ... }`. */
  function DateKey(t: Transaction): int { t.date }

  /** `t.type === 'INCOME' ? amount : -amount`. */
  function Signed(t: Transaction): int
  {
    if t.txType == Income then t.amount else -t.amount
  }

  predicate IsIncome(t: Transaction) { t.txType == Income }

  predicate IsExpense(t: Transaction) { t.txType == Expense }

  /** `date: { gte: from, lte: to }`: both ends inclusive. */
  function DatedWithin(from: int, to: int): Transaction -> bool
  {
    (t: Transaction) => from <= t.date <= to
  }

  /** `date: { lte: to }`. */
  function DatedUpTo(to: int): Transaction -> bool
  {
    (t: Transaction) => t.date <= to
  }

  /** `type: 'EXPENSE', category` as the budget queries filter. */
  function ExpenseIn(c: Category): Transaction -> bool
  {
    (t: Transaction) => t.txType == Expense && t.category == c
  }

  /** `ts.filter(t => t.type === 'INCOME').reduce((sum, t) => sum + t.amount, 0)`. */
  function IncomeSum(ts: seq<Transaction>): int
  {
    Total(Filter(ts, IsIncome), Amount)
  }

  /** `ts.filter(t => t.type === 'EXPENSE').reduce((sum, t) => sum + t.amount, 0)`. */
  function ExpenseSum(ts: seq<Transaction>): int
  {
    Total(Filter(ts, IsExpense), Amount)
  }

  /** The signed sum, the balance the transactions `ts` amount to. */
  function SignedSum(ts: seq<Transaction>): int
  {
    Total(ts, Signed)
  }

  /** What the EXPENSE transactions of category `c` among `ts` add up to. */
  function CategorySpend(ts: seq<Transaction>, c: Category): int
  {
    Total(Filter(ts, ExpenseIn(c)), Amount)
  }

  /** The signed sum is the income sum minus the expense sum. */
  lemma {:induction false} SignedIsIncomeMinusExpense(ts: seq<Transaction>)
    ensures SignedSum(ts) == IncomeSum(ts) - ExpenseSum(ts)
  {
    if ts != [] {
      SignedIsIncomeMinusExpense(ts[1..]);
    }
  }

  /**
   * Widening the "dated up to" cut-off from `e1` to `e2` adds the income and subtracts
   * the expense of the transactions dated in `(e1, e2]`.
   */
  lemma {:induction false} BalanceStep(ts: seq<Transaction>, e1: int, e2: int)
    requires e1 <= e2
    ensures SignedSum(Filter(ts, DatedUpTo(e2)))
         == SignedSum(Filter(ts, DatedUpTo(e1)))
          + IncomeSum(Filter(ts, DatedWithin(e1 + 1, e2)))
          - ExpenseSum(Filter(ts, DatedWithin(e1 + 1, e2)))
  {
    if ts != [] {
      BalanceStep(ts[1..], e1, e2);
    }
  }

  /** The same filter over two permutations of each other gives the same three sums. */
  lemma FilteredSumsPermutation(a: seq<Transaction>, b: seq<Transaction>, p: Transaction -> bool)
    requires multiset(a) == multiset(b)
    ensures IncomeSum(Filter(a, p)) == IncomeSum(Filter(b, p))
    ensures ExpenseSum(Filter(a, p)) == ExpenseSum(Filter(b, p))
    ensures SignedSum(Filter(a, p)) == SignedSum(Filter(b, p))
  {
    FilterPermutation(a, b, p);
    FilterPermutation(Filter(a, p), Filter(b, p), IsIncome);
    FilterPermutation(Filter(a, p), Filter(b, p), IsExpense);
    TotalPermutation(Filter(Filter(a, p), IsIncome), Filter(Filter(b, p), IsIncome), Amount);
    TotalPermutation(Filter(Filter(a, p), IsExpense), Filter(Filter(b, p), IsExpense), Amount);
    TotalPermutation(Filter(a, p), Filter(b, p), Signed);
  }

  /**
   * `Math.min((part / whole) * 100, 100)`: the share of `part` in `whole` as a percentage,
   * never above 100. It is exact up to 100, and it is 100 exactly when the raw share reaches 100.
   */
  function CappedPercentage(part: int, whole: int): (r: real)
    requires whole != 0
    ensures r <= 100.0
    ensures var raw := (part as real / whole as real) * 100.0;
      (raw <= 100.0 ==> r == raw) && (raw >= 100.0 ==> r == 100.0)
  {
    var raw := (part as real / whole as real) * 100.0;
    if raw < 100.0 then raw else 100.0
  }

  /** For a positive whole, the capped percentage is 100 exactly when `part` reaches `whole`. */
  lemma CappedPercentageFull(part: int, whole: int)
    requires whole > 0
    ensures CappedPercentage(part, whole) == 100.0 <==> part >= whole
    ensures 0 <= part ==> 0.0 <= CappedPercentage(part, whole)
  {
    var q := part as real / whole as real;
    assert q * whole as real == part as real;
    if part >= whole {
      assert q >= 1.0;
    } else {
      assert q < 1.0;
    }
  }

  /** `Math.ceil(x / d)` for a positive divisor: the least `r` with `x <= r * d`. */
  function CeilDiv(x: int, d: int): (r: int)
    requires d > 0
    ensures (r - 1) * d < x <= r * d
  {
    -((-x) / d)
  }
}

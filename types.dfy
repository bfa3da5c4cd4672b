/**
 * The shared vocabulary of the application: transaction types and categories, the
 * category presentation table and the relative-date wording used in lists.
 */
module Types {

  datatype TxType = Income | Expense

  datatype Period = Weekly | Monthly | Quarterly | Yearly

  datatype Category =
    | Salary | Freelance | InvestmentIncome | GiftReceived | OtherIncome
    | Housing | FoodDining | Groceries | Transportation | Utilities
    | Healthcare | Entertainment | Shopping | PersonalCare | Education
    | Insurance | DebtPayment | GiftsDonations | SavingsTransfer | OtherExpense

  /** A category's display entry; `title` holds the `label` field, `label` being a Dafny keyword. */
  datatype CategoryConfig = CategoryConfig(title: string, emoji: string, color: string, txType: TxType)

  /** Milliseconds in a day, `1000 * 60 * 60 * 24`. */
  const DAY_MS: int := 86400000

  /** The income categories, SALARY to OTHER_INCOME. */
  const IncomeCategories: seq<Category> := [Salary, Freelance, InvestmentIncome, GiftReceived, OtherIncome]

  /** The expense categories, HOUSING to OTHER_EXPENSE. */
  const ExpenseCategories: seq<Category> := [
    Housing, FoodDining, Groceries, Transportation, Utilities,
    Healthcare, Entertainment, Shopping, PersonalCare, Education,
    Insurance, DebtPayment, GiftsDonations, SavingsTransfer, OtherExpense]

  /** Every category, in declaration order. */
  const AllCategories: seq<Category> := IncomeCategories + ExpenseCategories

  /** `CATEGORY_CONFIG`: title (label), emoji, colour and income/expense type of each category. */
  function Config(c: Category): CategoryConfig
  {
    match c
    case Salary => CategoryConfig("Salaire", "\U{1F4B0}", "#10b981", Income)
    case Freelance => CategoryConfig("Freelance", "\U{1F4BC}", "#10b981", Income)
    case InvestmentIncome => CategoryConfig("Investissements", "\U{1F4C8}", "#10b981", Income)
    case GiftReceived => CategoryConfig("Cadeau re\U{E7}u", "\U{1F381}", "#10b981", Income)
    case OtherIncome => CategoryConfig("Autre revenu", "\U{1F4B5}", "#10b981", Income)
    case Housing => CategoryConfig("Logement", "\U{1F3E0}", "#3b82f6", Expense)
    case FoodDining => CategoryConfig("Restaurant", "\U{1F354}", "#f59e0b", Expense)
    case Groceries => CategoryConfig("Courses", "\U{1F6D2}", "#f59e0b", Expense)
    case Transportation => CategoryConfig("Transport", "\U{1F697}", "#8b5cf6", Expense)
    case Utilities => CategoryConfig("Factures", "\U{1F4A1}", "#6366f1", Expense)
    case Healthcare => CategoryConfig("Sant\U{E9}", "\U{1F48A}", "#ef4444", Expense)
    case Entertainment => CategoryConfig("Loisirs", "\U{1F3AE}", "#ec4899", Expense)
    case Shopping => CategoryConfig("Shopping", "\U{1F6CD}\U{FE0F}", "#14b8a6", Expense)
    case PersonalCare => CategoryConfig("Soins", "\U{1F487}", "#f43f5e", Expense)
    case Education => CategoryConfig("\U{C9}ducation", "\U{1F4DA}", "#0ea5e9", Expense)
    case Insurance => CategoryConfig("Assurance", "\U{1F6E1}\U{FE0F}", "#84cc16", Expense)
    case DebtPayment => CategoryConfig("Remboursement", "\U{1F4B3}", "#ef4444", Expense)
    case GiftsDonations => CategoryConfig("Cadeaux & Dons", "\U{1F381}", "#ec4899", Expense)
    case SavingsTransfer => CategoryConfig("\U{C9}pargne", "\U{1F3AF}", "#22c55e", Expense)
    case OtherExpense => CategoryConfig("Autre d\U{E9}pense", "\U{1F4E6}", "#6b7280", Expense)
  }

  /** The table is total: every category appears exactly once in `AllCategories`, which has 20 entries. */
  lemma CategoryTableTotal(c: Category)
    ensures |AllCategories| == 20
    ensures c in AllCategories
    ensures forall i, j :: 0 <= i < j < |AllCategories| ==> AllCategories[i] != AllCategories[j]
  {
  }

  /** Exactly the five income categories are configured INCOME; the other fifteen are EXPENSE. */
  lemma CategoryTypeSplit(c: Category)
    ensures Config(c).txType == Income <==> c in IncomeCategories
    ensures Config(c).txType == Expense <==> c in ExpenseCategories
    ensures |IncomeCategories| == 5 && |ExpenseCategories| == 15
  {
    match c
    case Salary =>
    case Freelance =>
    case InvestmentIncome =>
    case GiftReceived =>
    case OtherIncome =>
    case _ => assert c in ExpenseCategories;
  }

  /** `Math.floor((now - d) / DAY_MS)`: whole days elapsed since `d`, negative for a future `d`. */
  function DiffDays(now: int, d: int): (r: int)
    ensures r * DAY_MS <= now - d < (r + 1) * DAY_MS
  {
    (now - d) / DAY_MS
  }

  /** The branch `formatRelativeDate` takes, with the number it shows. */
  datatype RelativeBucket =
    | Today
    | Yesterday
    | DaysAgo(days: int)
    | WeeksAgo(weeks: int)
    | MonthsAgo(months: int)
    | YearsAgo(years: int)

  /** The if-chain of `formatRelativeDate` on a day difference. */
  function Bucket(diffDays: int): (b: RelativeBucket)
    ensures b.Today? <==> diffDays == 0
    ensures b.Yesterday? <==> diffDays == 1
    ensures b.DaysAgo? <==> diffDays < 7 && diffDays != 0 && diffDays != 1
    ensures b.WeeksAgo? <==> 7 <= diffDays < 30
    ensures b.MonthsAgo? <==> 30 <= diffDays < 365
    ensures b.YearsAgo? <==> 365 <= diffDays
    ensures b.DaysAgo? ==> b.days == diffDays
    ensures b.WeeksAgo? ==> 1 <= b.weeks <= 4 && b.weeks * 7 <= diffDays < (b.weeks + 1) * 7
    ensures b.MonthsAgo? ==> 1 <= b.months <= 12 && b.months * 30 <= diffDays < (b.months + 1) * 30
    ensures b.YearsAgo? ==> 1 <= b.years && b.years * 365 <= diffDays < (b.years + 1) * 365
  {
    if diffDays == 0 then Today
    else if diffDays == 1 then Yesterday
    else if diffDays < 7 then DaysAgo(diffDays)
    else if diffDays < 30 then WeeksAgo(diffDays / 7)
    else if diffDays < 365 then MonthsAgo(diffDays / 30)
    else YearsAgo(diffDays / 365)
  }

  /** Decimal digits of a natural number, as a JavaScript template literal prints it. */
  function NatToString(n: nat): (s: string)
    ensures |s| > 0
    ensures forall i :: 0 <= i < |s| ==> '0' <= s[i] <= '9'
  {
    var digit := [(('0' as int) + n % 10) as char];
    if n < 10 then digit else NatToString(n / 10) + digit
  }

  function IntToString(i: int): (s: string)
    ensures |s| > 0
  {
    if i < 0 then "-" + NatToString(-i) else NatToString(i)
  }

  /** The French wording of a bucket. */
  function Render(b: RelativeBucket): string
  {
    match b
    case Today => "Aujourd'hui"
    case Yesterday => "Hier"
    case DaysAgo(n) => "Il y a " + IntToString(n) + " jours"
    case WeeksAgo(n) => "Il y a " + IntToString(n) + " semaines"
    case MonthsAgo(n) => "Il y a " + IntToString(n) + " mois"
    case YearsAgo(n) => "Il y a " + IntToString(n) + " ans"
  }

  /** `formatRelativeDate(d)` with the clock reading `now` passed in. */
  function FormatRelativeDate(d: int, now: int): (s: string)
  {
    Render(Bucket(DiffDays(now, d)))
  }

  /** A date less than a day old reads "Aujourd'hui"; one to two days old reads "Hier". */
  lemma RelativeDateNearDays(d: int, now: int)
    ensures d <= now < d + DAY_MS ==> FormatRelativeDate(d, now) == "Aujourd'hui"
    ensures d + DAY_MS <= now < d + 2 * DAY_MS ==> FormatRelativeDate(d, now) == "Hier"
    ensures now < d ==> Bucket(DiffDays(now, d)).DaysAgo? && Bucket(DiffDays(now, d)).days < 0
  {
    var k := DiffDays(now, d);
    if d <= now < d + DAY_MS {
      assert 0 <= k * DAY_MS && k * DAY_MS < DAY_MS;
      assert k == 0;
    }
    if d + DAY_MS <= now < d + 2 * DAY_MS {
      assert DAY_MS <= (k + 1) * DAY_MS && k * DAY_MS < 2 * DAY_MS;
      assert k == 1;
    }
  }
}

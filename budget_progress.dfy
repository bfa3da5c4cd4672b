/**
 * The `BudgetProgress` card: a budget's spend against its total, classified into one of four
 * statuses that choose the badge, the bar colour and the wording of the remaining amount.
 */
module BudgetProgress {
  import ProgressBar

  /** The four statuses, from least to most severe. */
  datatype Status = OnTrack | Approaching | Warning | Exceeded

  /** `(spent / total) * 100`, not capped: an overspent budget goes past 100. */
  function Percentage(spent: int, total: int): (p: real)
    requires total != 0
    ensures p * total as real == spent as real * 100.0
  {
    (spent as real / total as real) * 100.0
  }

  predicate IsExceeded(p: real) { p > 100.0 }

  predicate IsWarning(p: real) { p >= 80.0 && !IsExceeded(p) }

  predicate IsApproaching(p: real) { p >= 60.0 && p < 80.0 }

  /** The if-chain of `getStatusBadge`: exactly one status, by band of the percentage. */
  function StatusOf(p: real): (s: Status)
    ensures s == Exceeded <==> p > 100.0
    ensures s == Warning <==> 80.0 <= p <= 100.0
    ensures s == Approaching <==> 60.0 <= p < 80.0
    ensures s == OnTrack <==> p < 60.0
  {
    if IsExceeded(p) then Exceeded
    else if IsWarning(p) then Warning
    else if IsApproaching(p) then Approaching
    else OnTrack
  }

  datatype BadgeView = BadgeView(variant: string, text: string, pulsing: bool)

  /** The badge of each status. */
  function Badge(s: Status): (b: BadgeView)
    ensures b.pulsing <==> s == Exceeded
  {
    match s
    case Exceeded => BadgeView("destructive", "D\U{E9}pass\U{E9}", true)
    case Warning => BadgeView("warning", "Attention", false)
    case Approaching => BadgeView("secondary", "En cours", false)
    case OnTrack => BadgeView("success", "OK", false)
  }

  /** Distinct statuses get distinct badges. */
  lemma BadgesDistinct(s1: Status, s2: Status)
    requires s1 != s2
    ensures Badge(s1).text != Badge(s2).text && Badge(s1).variant != Badge(s2).variant
  {
  }

  /** `getProgressVariant`: red when exceeded, amber in the warning band, green otherwise (approaching included). */
  function BarVariant(p: real): (v: ProgressBar.Variant)
    ensures v == ProgressBar.Danger <==> StatusOf(p) == Exceeded
    ensures v == ProgressBar.Warning <==> StatusOf(p) == Warning
    ensures v == ProgressBar.Success <==> StatusOf(p) == Approaching || StatusOf(p) == OnTrack
  {
    if IsExceeded(p) then ProgressBar.Danger
    else if IsWarning(p) then ProgressBar.Warning
    else ProgressBar.Success
  }

  datatype AmountView = AmountView(amount: int, caption: string)

  /** `formatCurrency(Math.abs(remaining))` followed by `'au-dessus'` when exceeded, `'restant'` otherwise. */
  function RemainingView(spent: int, total: int): (v: AmountView)
    requires total != 0
    ensures v.amount >= 0
    ensures v.amount == total - spent || v.amount == spent - total
    ensures v.caption == (if StatusOf(Percentage(spent, total)) == Exceeded then "au-dessus" else "restant")
    ensures total > 0 ==> (v.caption == "au-dessus" <==> spent > total)
    ensures total > 0 && v.caption == "restant" ==> v.amount == total - spent
  {
    ExceededIffOverspent(spent, total);
    var remaining := total - spent;
    AmountView(if remaining < 0 then -remaining else remaining,
      if IsExceeded(Percentage(spent, total)) then "au-dessus" else "restant")
  }

  /** For a positive total, the budget is exceeded exactly when more than the total was spent. */
  lemma ExceededIffOverspent(spent: int, total: int)
    requires total != 0
    ensures total > 0 ==> (IsExceeded(Percentage(spent, total)) <==> spent > total)
  {
    var p := Percentage(spent, total);
    if total > 0 {
      if spent > total {
        assert p * total as real > 100.0 * total as real;
      } else {
        assert p * total as real <= 100.0 * total as real;
      }
    }
  }

  /** How severe a status is, 0 for OK up to 3 for exceeded. */
  function Severity(s: Status): nat
  {
    match s
    case OnTrack => 0
    case Approaching => 1
    case Warning => 2
    case Exceeded => 3
  }

  /** For a fixed positive total, spending more never makes the status less severe. */
  lemma SeverityMonotone(spent1: int, spent2: int, total: int)
    requires total > 0 && spent1 <= spent2
    ensures Severity(StatusOf(Percentage(spent1, total))) <= Severity(StatusOf(Percentage(spent2, total)))
  {
    var p1, p2 := Percentage(spent1, total), Percentage(spent2, total);
    assert (p2 - p1) * total as real == (spent2 - spent1) as real * 100.0;
    assert p1 <= p2;
  }

  /** The bar under the card fills completely exactly when the raw percentage reaches 100. */
  lemma BarFullIffPercentReached(spent: int, total: int)
    requires total > 0
    ensures ProgressBar.Percentage(spent as real, total as real) == 100.0 <==> Percentage(spent, total) >= 100.0
  {
  }
}

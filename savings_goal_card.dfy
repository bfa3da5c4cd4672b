/**
 * The `SavingsGoalCard`: a goal's progress ring, amounts and quick-add buttons, and the
 * `isAnimating` flag that quick-adds and reaching the goal switch on.
 */
module SavingsGoalCard {
  import opened Wrappers
  import opened Ledger

  /** The goal the card shows; amounts in the same unit as the quick-add amounts. */
  datatype SavingsGoal = SavingsGoal(name: string, emoji: string, current: int, target: int, deadline: Option<int>)

  /** The amounts the quick-add buttons offer, in order. */
  const QUICK_ADD_AMOUNTS: seq<int> := [10, 50, 100]

  /** `Math.min((current / target) * 100, 100)`. */
  function Percentage(g: SavingsGoal): (r: real)
    requires g.target != 0
    ensures var raw := (g.current as real / g.target as real) * 100.0;
      (raw < 100.0 ==> r == raw) && (raw >= 100.0 ==> r == 100.0)
    ensures g.target > 0 && g.current >= 0 ==> 0.0 <= r
  {
    if g.target > 0 then CappedPercentageFull(g.current, g.target); CappedPercentage(g.current, g.target)
    else CappedPercentage(g.current, g.target)
  }

  function Remaining(g: SavingsGoal): int { g.target - g.current }

  /** `percentage >= 100`. */
  predicate IsCompleted(g: SavingsGoal)
    requires g.target != 0
  {
    Percentage(g) >= 100.0
  }

  /** For a positive target, the goal is completed exactly when the saved amount reaches the target. */
  lemma CompletedIffReached(g: SavingsGoal)
    requires g.target > 0
    ensures IsCompleted(g) <==> g.current >= g.target
  {
    CappedPercentageFull(g.current, g.target);
  }

  datatype PieSlice = PieSlice(name: string, value: int, color: string)

  /** The two slices of the ring: what is saved and what is left, the latter never negative. */
  function ChartData(g: SavingsGoal): (d: seq<PieSlice>)
    ensures |d| == 2
    ensures d[0].value == g.current
    ensures d[1].value >= 0
    ensures d[1].value == 0 <==> g.current >= g.target
    ensures g.current <= g.target ==> d[0].value + d[1].value == g.target
    ensures g.current >= g.target ==> d[0].value + d[1].value == g.current
  {
    var r := Remaining(g);
    [PieSlice("Current", g.current, "#10b981"), PieSlice("Remaining", if r > 0 then r else 0, "#e5e7eb")]
  }

  /** Which optional parts of the card are shown. */
  datatype CardView = CardView(remainingRow: bool, quickAdd: seq<int>, completedBadge: bool, congratulations: bool)

  /**
   * What the card shows for the goal `g`, with `hasQuickAdd` telling whether an `onQuickAdd`
   * callback was passed: the remaining row while the goal is not reached, the three quick-add
   * buttons while it is not reached and there is a callback, the badge and message once it is.
   */
  function View(g: SavingsGoal, hasQuickAdd: bool): (v: CardView)
    requires g.target != 0
    ensures v.remainingRow <==> !IsCompleted(g)
    ensures v.quickAdd == if !IsCompleted(g) && hasQuickAdd then QUICK_ADD_AMOUNTS else []
    ensures v.completedBadge <==> IsCompleted(g)
    ensures v.congratulations <==> IsCompleted(g)
    ensures g.target > 0 ==> (v.remainingRow <==> g.current < g.target)
  {
    assert g.target > 0 ==> (IsCompleted(g) <==> g.current >= g.target) by {
      if g.target > 0 { CompletedIffReached(g); }
    }
    var done := IsCompleted(g);
    CardView(!done, if !done && hasQuickAdd then QUICK_ADD_AMOUNTS else [], done, done)
  }

  /** The card's state. `added` records, in order, the amounts handed to `onQuickAdd`. */
  class Card {
    const goal: SavingsGoal
    const hasQuickAdd: bool
    var isAnimating: bool
    var added: seq<int>

    constructor (goal: SavingsGoal, hasQuickAdd: bool)
      ensures this.goal == goal && this.hasQuickAdd == hasQuickAdd
      ensures !isAnimating && added == []
    {
      this.goal := goal;
      this.hasQuickAdd := hasQuickAdd;
      isAnimating := false;
      added := [];
    }

    /** `handleQuickAdd(amount)`: with a callback, animate and call it once; without one, nothing. */
    method HandleQuickAdd(amount: int)
      modifies this
      ensures hasQuickAdd ==> isAnimating && added == old(added) + [amount]
      ensures !hasQuickAdd ==> isAnimating == old(isAnimating) && added == old(added)
    {
      if hasQuickAdd {
        isAnimating := true;
        added := added + [amount];
      }
    }

    /** A click on the `k`-th quick-add button, which exists only while the view offers it. */
    method ClickQuickAdd(k: nat)
      requires goal.target != 0 && k < |View(goal, hasQuickAdd).quickAdd|
      modifies this
      ensures isAnimating && added == old(added) + [QUICK_ADD_AMOUNTS[k]]
    {
      HandleQuickAdd(QUICK_ADD_AMOUNTS[k]);
    }

    /** The effect run when `isCompleted` changes: a completed goal starts the celebration. */
    method CompletionEffect()
      requires goal.target != 0
      modifies this
      ensures isAnimating == (IsCompleted(goal) || old(isAnimating))
      ensures added == old(added)
    {
      if IsCompleted(goal) {
        isAnimating := true;
      }
    }

    /** The timeout started by a quick-add or by the celebration fires. */
    method AnimationTimeout()
      modifies this
      ensures !isAnimating && added == old(added)
    {
      isAnimating := false;
    }
  }
}

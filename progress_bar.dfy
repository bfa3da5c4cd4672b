/**
 * The `Progress` bar: a value against a maximum, shown as a width clamped to [0, 100] percent,
 * in one of four colours.
 */
module ProgressBar {
  import opened Wrappers

  datatype Variant = Default | Success | Warning | Danger

  /** The props; an absent prop takes its default. */
  datatype Props = Props(value: Option<real>, max: Option<real>, variant: Option<Variant>)

  const DEFAULT_VALUE: real := 0.0
  const DEFAULT_MAX: real := 100.0
  const DEFAULT_VARIANT: Variant := Default

  function Min(a: real, b: real): real { if a < b then a else b }

  function Max(a: real, b: real): real { if a > b then a else b }

  /** `Math.min(Math.max((value / max) * 100, 0), 100)`. */
  function Percentage(value: real, max: real): (r: real)
    requires max != 0.0
    ensures 0.0 <= r <= 100.0
    ensures var raw := (value / max) * 100.0;
      && (0.0 <= raw <= 100.0 ==> r == raw)
      && (raw >= 100.0 ==> r == 100.0)
      && (raw <= 0.0 ==> r == 0.0)
  {
    Min(Max((value / max) * 100.0, 0.0), 100.0)
  }

  /** For a positive maximum, a value between 0 and the maximum is shown exactly. */
  lemma PercentageExact(value: real, max: real)
    requires max > 0.0 && 0.0 <= value <= max
    ensures Percentage(value, max) == (value / max) * 100.0
  {
    assert value / max <= 1.0;
  }

  /** For a positive maximum, a value at or past it fills the bar and a value at or below 0 empties it. */
  lemma PercentageSaturates(value: real, max: real)
    requires max > 0.0
    ensures value >= max ==> Percentage(value, max) == 100.0
    ensures value <= 0.0 ==> Percentage(value, max) == 0.0
  {
    if value >= max {
      assert value / max >= 1.0;
    }
    if value <= 0.0 {
      assert value / max <= 0.0;
    }
  }

  /** For a positive maximum, a larger value never shows a shorter bar. */
  lemma PercentageMonotone(v1: real, v2: real, max: real)
    requires max > 0.0 && v1 <= v2
    ensures Percentage(v1, max) <= Percentage(v2, max)
  {
    assert v1 / max <= v2 / max;
  }

  /** `variantColors`: the fill class of each variant. */
  function Color(v: Variant): string
  {
    match v
    case Default => "bg-[#10b981]"
    case Success => "bg-[#22c55e]"
    case Warning => "bg-[#f59e0b]"
    case Danger => "bg-[#ef4444]"
  }

  /** The width, in percent, the bar is drawn with. */
  function Width(props: Props): real
    requires props.max.GetOr(DEFAULT_MAX) != 0.0
  {
    Percentage(props.value.GetOr(DEFAULT_VALUE), props.max.GetOr(DEFAULT_MAX))
  }

  /** The fill class the bar is drawn with. */
  function Fill(props: Props): string
  {
    Color(props.variant.GetOr(DEFAULT_VARIANT))
  }

  /**
   * With no props the bar is empty and green; with only a value in [0, 100], the value is the
   * width, since the maximum defaults to 100.
   */
  lemma Defaults(value: real)
    ensures Width(Props(None, None, None)) == 0.0
    ensures Fill(Props(None, None, None)) == "bg-[#10b981]"
    ensures 0.0 <= value <= 100.0 ==> Width(Props(Some(value), None, None)) == value
  {
    if 0.0 <= value <= 100.0 {
      PercentageExact(value, DEFAULT_MAX);
    }
  }
}

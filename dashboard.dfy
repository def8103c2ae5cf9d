/**
 * How the capacity gauge of the simulator reaches the capacity card: the card and its
 * progress bar receive `capacityPercentage` as their value.
 */
module Dashboard {
  import opened Options
  import Stats
  import CapacityCard
  import Progress

  /** Every gauge the simulator can hold renders a bar shifted by 0 to 100 percent whose
      colour band matches the card's label. */
  lemma GaugeRendersWithinBar(current: int)
    requires 0 <= current <= Stats.MaxCapacity
    ensures 0 <= Stats.CapacityPercentage(current) <= 100
    ensures 0.0 <= Progress.RenderIndicator(Some(Stats.CapacityPercentage(current) as real)).offset <= 100.0
    ensures Progress.RenderIndicator(Some(Stats.CapacityPercentage(current) as real)).colorClass
            <= CapacityCard.StatusColor(Stats.CapacityPercentage(current) as real)
  {
  }

  /** A saturated gauge reads 100 %: label High, red badge and bar, bar not shifted at all. */
  lemma SaturatedGaugeIsHigh()
    ensures Stats.CapacityPercentage(Stats.MaxCapacity) == 100
    ensures CapacityCard.StatusLabel(100.0) == CapacityCard.High
    ensures CapacityCard.StatusColor(100.0) == CapacityCard.RedBadge
    ensures Progress.RenderIndicator(Some(100.0)) == Progress.Indicator(Progress.RedBar, 0.0)
  {
  }

  /** The gauge reads High exactly from 3275 visitors (65.5 % rounds up to 66). */
  lemma HighBandStartsAt3275(current: int)
    requires 0 <= current <= Stats.MaxCapacity
    ensures CapacityCard.StatusLabel(Stats.CapacityPercentage(current) as real) == CapacityCard.High
            <==> current >= 3275
  {
  }
}

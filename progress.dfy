/**
 * The progress bar of src/components/ui/progress.tsx: an absent value counts as 0, the
 * indicator's colour uses the same 33 / 66 bands as the capacity card, and the indicator is
 * shifted left by 100 - value percent.
 */
module Progress {
  import opened Options
  import CapacityCard

  const GreenBar: string := "bg-green-500"
  const YellowBar: string := "bg-yellow-500"
  const RedBar: string := "bg-red-500"

  /** `value ?? 0`: a null or omitted value reads as 0. */
  function SafeValue(value: Option<real>): real {
    match value
    case None => 0.0
    case Some(v) => v
  }

  /** getProgressColor: exactly one of the three bar classes, green for an absent value. */
  function ProgressColor(percentage: Option<real>): (c: string)
    ensures c == GreenBar || c == YellowBar || c == RedBar
    ensures percentage.None? ==> c == GreenBar
  {
    var pct := SafeValue(percentage);
    if pct < 33.0 then GreenBar
    else if pct < 66.0 then YellowBar
    else RedBar
  }

  /** The bar picks the band the capacity card picks, and its class opens the card's badge class. */
  lemma ProgressColorAgreesWithStatus(p: real)
    ensures ProgressColor(Some(p)) == GreenBar <==> CapacityCard.StatusLabel(p) == CapacityCard.Low
    ensures ProgressColor(Some(p)) == YellowBar <==> CapacityCard.StatusLabel(p) == CapacityCard.Medium
    ensures ProgressColor(Some(p)) == RedBar <==> CapacityCard.StatusLabel(p) == CapacityCard.High
    ensures ProgressColor(Some(p)) <= CapacityCard.StatusColor(p)
  {
  }

  /** The indicator as Progress renders it: its colour class and how far, in percent of the
      bar, it is shifted to the left (`translateX(-(100 - safeValue)%)`). */
  datatype Indicator = Indicator(colorClass: string, offset: real)

  function RenderIndicator(value: Option<real>): (ind: Indicator)
    ensures ind.offset + SafeValue(value) == 100.0
    ensures 0.0 <= SafeValue(value) <= 100.0 ==> 0.0 <= ind.offset <= 100.0
    ensures value.None? ==> ind == Indicator(GreenBar, 100.0)
    ensures ind.colorClass == ProgressColor(value)
  {
    var safeValue := SafeValue(value);
    Indicator(ProgressColor(Some(safeValue)), 100.0 - safeValue)
  }
}

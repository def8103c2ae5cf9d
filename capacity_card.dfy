/**
 * The band classifiers of src/components/ui/CapacityCard.tsx: a capacity percentage is Low
 * below 33, Medium below 66 and High from 66 up, and the badge colour follows the band.
 */
module CapacityCard {

  datatype CapacityStatus = Low | Medium | High

  const GreenBadge: string := "bg-green-500 text-white"
  const YellowBadge: string := "bg-yellow-500 text-black"
  const RedBadge: string := "bg-red-500 text-white"

  /** getStatusLabel: each band holds exactly the percentages of its interval. */
  function StatusLabel(percentage: real): (s: CapacityStatus)
    ensures s == Low <==> percentage < 33.0
    ensures s == Medium <==> 33.0 <= percentage < 66.0
    ensures s == High <==> 66.0 <= percentage
  {
    if percentage < 33.0 then Low
    else if percentage < 66.0 then Medium
    else High
  }

  /** getStatusColor: green, yellow and red badges for the Low, Medium and High bands. */
  function StatusColor(percentage: real): (c: string)
    ensures c == GreenBadge <==> StatusLabel(percentage) == Low
    ensures c == YellowBadge <==> StatusLabel(percentage) == Medium
    ensures c == RedBadge <==> StatusLabel(percentage) == High
  {
    if percentage < 33.0 then GreenBadge
    else if percentage < 66.0 then YellowBadge
    else RedBadge
  }

  /** Bands in increasing order of load. */
  function Rank(s: CapacityStatus): nat {
    match s
    case Low => 0
    case Medium => 1
    case High => 2
  }

  /** A larger percentage never gives a lower band. */
  lemma StatusLabelMonotone(p: real, q: real)
    requires p <= q
    ensures Rank(StatusLabel(p)) <= Rank(StatusLabel(q))
  {
  }

  /** A full gauge is High and an empty one is Low. */
  lemma StatusLabelEnds()
    ensures StatusLabel(100.0) == High && StatusColor(100.0) == RedBadge
    ensures StatusLabel(0.0) == Low && StatusColor(0.0) == GreenBadge
  {
  }
}

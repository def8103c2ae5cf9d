/**
 * The metrics simulator of src/api/stats.ts: four pieces of module state (visitor counter,
 * ticket-sales week, capacity gauge, attraction roster), each nudged by a bounded random
 * amount on every fetch. The random samples are parameters; the 500 ms delay is dropped.
 */
module Stats {
  import opened Options
  import opened Random

  const SeedTotalVisitors: int := 2075
  const YesterdaysVisitors: int := 4023
  const SeedCurrentVisitors: int := 300
  const MaxCapacity: int := 5000
  const WeekDays: seq<string> := ["Mon", "Tue", "Wed", "Thu", "Fri", "Sat", "Sun"]

  function Max(a: int, b: int): int { if a >= b then a else b }
  function Min(a: int, b: int): int { if a <= b then a else b }

  // ---------------------------------------------------------------------------------------
  // Visitor counters

  datatype TodayVisitorsStats = TodayVisitorsStats(totalVisitors: int, yesterdaysVisitors: int)

  /** The "BIG jump" added to the counter on each fetch. */
  function VisitorIncrement(u: real): (d: int)
    requires IsUnit(u)
    ensures 50 <= d <= 249
  {
    Draw(u, 200, 50)
  }

  /** The counter after a run of fetches whose samples are `us`, in call order. */
  function VisitorsAfter(total: int, us: seq<real>): int
    requires AllUnit(us)
  {
    if us == [] then total
    else VisitorsAfter(total, us[..|us| - 1]) + VisitorIncrement(us[|us| - 1])
  }

  /** Between the i-th and the j-th fetch the counter grows by 50 to 249 per fetch. */
  lemma {:induction false} VisitorsGrowAcrossFetches(total: int, us: seq<real>, i: nat, j: nat)
    requires AllUnit(us) && i <= j <= |us|
    ensures VisitorsAfter(total, us[..i]) + 50 * (j - i) <= VisitorsAfter(total, us[..j])
    ensures VisitorsAfter(total, us[..j]) <= VisitorsAfter(total, us[..i]) + 249 * (j - i)
  {
    if i < j {
      assert us[..j][..j - 1] == us[..j - 1];
      VisitorsGrowAcrossFetches(total, us, i, j - 1);
    }
  }

  /** The counter is strictly increasing from one fetch to any later one. */
  lemma VisitorsStrictlyIncrease(total: int, us: seq<real>, i: nat, j: nat)
    requires AllUnit(us) && i < j <= |us|
    ensures VisitorsAfter(total, us[..i]) < VisitorsAfter(total, us[..j])
  {
    VisitorsGrowAcrossFetches(total, us, i, j);
  }

  // ---------------------------------------------------------------------------------------
  // Ticket sales

  datatype TicketEntry = TicketEntry(day: string, tickets: int)

  const SeedTicketSales: seq<TicketEntry> := [
    TicketEntry("Mon", 2001), TicketEntry("Tue", 2052), TicketEntry("Wed", 1784),
    TicketEntry("Thu", 2494), TicketEntry("Fri", 2794), TicketEntry("Sat", 4023),
    TicketEntry("Sun", 2082)
  ]

  /** The amount added to the last day's tickets on each fetch. */
  function TicketIncrement(u: real): (d: int)
    requires IsUnit(u)
    ensures 50 <= d <= 549
  {
    Draw(u, 500, 50)
  }

  /** The series a fetch saves: the same days in the same order, only the last day raised.
      An empty series, on which the source would fail reading `newData[-1].tickets`, never
      occurs: `Simulator.Valid()` keeps seven entries. */
  function NextTicketSales(sales: seq<TicketEntry>, u: real): (r: seq<TicketEntry>)
    requires |sales| > 0 && IsUnit(u)
    ensures |r| == |sales|
    ensures forall i :: 0 <= i < |r| ==> r[i].day == sales[i].day
    ensures r[..|r| - 1] == sales[..|sales| - 1]
    ensures sales[|sales| - 1].tickets + 50 <= r[|r| - 1].tickets <= sales[|sales| - 1].tickets + 549
  {
    var last := |sales| - 1;
    sales[last := sales[last].(tickets := sales[last].tickets + TicketIncrement(u))]
  }

  /** The series after a run of fetches whose samples are `us`, in call order. */
  function TicketSalesAfter(sales: seq<TicketEntry>, us: seq<real>): (r: seq<TicketEntry>)
    requires |sales| > 0 && AllUnit(us)
    ensures |r| == |sales|
  {
    if us == [] then sales
    else NextTicketSales(TicketSalesAfter(sales, us[..|us| - 1]), us[|us| - 1])
  }

  /** Over any number of fetches the days and every day but the last are untouched, and the
      last day gains 50 to 549 tickets per fetch. */
  lemma {:induction false} TicketSalesAcrossFetches(sales: seq<TicketEntry>, us: seq<real>)
    requires |sales| > 0 && AllUnit(us)
    ensures |TicketSalesAfter(sales, us)| == |sales|
    ensures forall i :: 0 <= i < |sales| ==> TicketSalesAfter(sales, us)[i].day == sales[i].day
    ensures TicketSalesAfter(sales, us)[..|sales| - 1] == sales[..|sales| - 1]
    ensures sales[|sales| - 1].tickets + 50 * |us| <= TicketSalesAfter(sales, us)[|sales| - 1].tickets
    ensures TicketSalesAfter(sales, us)[|sales| - 1].tickets <= sales[|sales| - 1].tickets + 549 * |us|
  {
    if us != [] {
      TicketSalesAcrossFetches(sales, us[..|us| - 1]);
    }
  }

  // ---------------------------------------------------------------------------------------
  // Capacity gauge

  datatype CapacityStats = CapacityStats(currentVisitors: int, capacityPercentage: int)

  /** The amount admitted on a fetch while the gauge is below capacity. */
  function CapacityIncrement(u: real): (d: int)
    requires IsUnit(u)
    ensures 50 <= d <= 349
  {
    Draw(u, 300, 50)
  }

  /** `currentVisitors` after a fetch: below the cap it rises by 50 to 349, clamped at the
      cap; at (or above) the cap it is left alone and no sample is taken. */
  function NextCurrentVisitors(current: int, u: real): (r: int)
    requires IsUnit(u)
    ensures current >= MaxCapacity ==> r == current
    ensures current < MaxCapacity ==> current < r <= MaxCapacity
    ensures current < MaxCapacity ==>
              Min(current + 50, MaxCapacity) <= r <= Min(current + 349, MaxCapacity)
  {
    if current < MaxCapacity then Min(current + CapacityIncrement(u), MaxCapacity) else current
  }

  /** `Math.round(x)`: the nearest integer, halves rounded up. */
  function RoundHalfUp(x: real): int {
    (x + 0.5).Floor
  }

  /** The gauge's percentage, in integer arithmetic: round(current / 5000 * 100). */
  function CapacityPercentage(current: int): (p: int)
    ensures p == RoundHalfUp(current as real / MaxCapacity as real * 100.0)
    ensures 0 <= current <= MaxCapacity ==> 0 <= p <= 100
    ensures current == MaxCapacity ==> p == 100
  {
    FloorOfQuotient(current + 25, 50);
    (current + 25) / 50
  }

  /** Over the reals, n / m rounds down to the integer quotient n / m. */
  lemma FloorOfQuotient(n: int, m: int)
    requires m > 0
    ensures (n as real / m as real).Floor == n / m
  {
    var q, r := n / m, n % m;
    assert n as real == q as real * m as real + r as real;
    assert n as real / m as real == q as real + r as real / m as real;
    assert 0.0 <= r as real / m as real < 1.0;
  }

  /** The gauge after a run of fetches whose samples are `us`, in call order. */
  function CapacityAfter(current: int, us: seq<real>): int
    requires AllUnit(us)
  {
    if us == [] then current
    else NextCurrentVisitors(CapacityAfter(current, us[..|us| - 1]), us[|us| - 1])
  }

  /** From any gauge within capacity, every run of fetches keeps it within capacity, never
      lowers it, and raises it by at least 50 per fetch until it saturates. */
  lemma {:induction false} CapacityAcrossFetches(current: int, us: seq<real>)
    requires AllUnit(us) && 0 <= current <= MaxCapacity
    ensures current <= CapacityAfter(current, us) <= MaxCapacity
    ensures Min(current + 50 * |us|, MaxCapacity) <= CapacityAfter(current, us)
  {
    if us != [] {
      CapacityAcrossFetches(current, us[..|us| - 1]);
    }
  }

  /** Once the gauge is full, no run of fetches changes it. */
  lemma {:induction false} SaturationIsFinal(us: seq<real>)
    requires AllUnit(us)
    ensures CapacityAfter(MaxCapacity, us) == MaxCapacity
  {
    if us != [] {
      SaturationIsFinal(us[..|us| - 1]);
    }
  }

  /** From the seed of 300, one hundred fetches fill the gauge whatever the samples are. */
  lemma SeedGaugeFillsWithinHundredFetches(us: seq<real>)
    requires AllUnit(us) && |us| >= 100
    ensures CapacityAfter(SeedCurrentVisitors, us) == MaxCapacity
    ensures CapacityPercentage(CapacityAfter(SeedCurrentVisitors, us)) == 100
  {
    CapacityAcrossFetches(SeedCurrentVisitors, us);
  }

  // ---------------------------------------------------------------------------------------
  // Attraction roster

  datatype AttractionStatus = Open | Closed | Delayed

  datatype Attraction = Attraction(
    id: string,
    name: string,
    staffAssigned: int,
    revenue: real,
    capacity: int,
    queueLength: int,
    status: AttractionStatus,
    waitTime: Option<int>,
    lastUpdated: string,
    fastPass: bool)

  /** The five `Math.random()` samples one attraction's update may consume. `freshWait` is
      read only when the wait time was null. */
  datatype AttractionDraws = AttractionDraws(wait: real, freshWait: real, staff: real, revenue: real, queue: real)
  {
    predicate Valid() {
      IsUnit(wait) && IsUnit(freshWait) && IsUnit(staff) && IsUnit(revenue) && IsUnit(queue)
    }
  }

  predicate AllDrawsValid(draws: seq<AttractionDraws>) {
    forall i :: 0 <= i < |draws| ==> draws[i].Valid()
  }

  function SeedAttractions(now: string): seq<Attraction> {
    [ Attraction("1", "Dragon Coaster", 24, 3200.12, 250, 31, Open, Some(45), now, true),
      Attraction("2", "Haunted Manor", 27, 4241.51, 535, 142, Delayed, None, now, true),
      Attraction("3", "River Rapids", 64, 1253.51, 113, 214, Closed, None, now, false) ]
  }

  function WaitDelta(u: real): (d: int)
    requires IsUnit(u)
    ensures -5 <= d <= 9
  {
    Draw(u, 15, -5)
  }

  function FreshWaitTime(u: real): (w: int)
    requires IsUnit(u)
    ensures 10 <= w <= 39
  {
    Draw(u, 30, 10)
  }

  function StaffDelta(u: real): (d: int)
    requires IsUnit(u)
    ensures -1 <= d <= 1
  {
    Draw(u, 3, -1)
  }

  function RevenueIncrease(u: real): (d: int)
    requires IsUnit(u)
    ensures 50 <= d <= 500
  {
    Draw(u, 451, 50)
  }

  function QueueDelta(u: real): (d: int)
    requires IsUnit(u)
    ensures -10 <= d <= 10
  {
    Draw(u, 21, -10)
  }

  /** One attraction after a fetch: every walk keeps its floor, revenue only rises, and the
      identity, status, capacity and fast-pass fields are carried over untouched. */
  function FluctuateAttraction(a: Attraction, d: AttractionDraws, now: string): (r: Attraction)
    requires d.Valid()
    ensures r.(waitTime := a.waitTime, staffAssigned := a.staffAssigned, revenue := a.revenue,
               queueLength := a.queueLength, lastUpdated := a.lastUpdated) == a
    ensures r.lastUpdated == now
    ensures a.revenue + 50.0 <= r.revenue <= a.revenue + 500.0
    ensures Max(1, a.staffAssigned - 1) <= r.staffAssigned <= Max(1, a.staffAssigned + 1)
    ensures Max(0, a.queueLength - 10) <= r.queueLength <= Max(0, a.queueLength + 10)
    ensures r.waitTime.Some?
    ensures a.waitTime.None? ==> 10 <= r.waitTime.value <= 39
    ensures a.waitTime.Some? ==>
              Max(5, a.waitTime.value - 5) <= r.waitTime.value <= Max(5, a.waitTime.value + 9)
  {
    var newWaitTime :=
      if a.waitTime.None? then FreshWaitTime(d.freshWait)
      else Max(5, a.waitTime.value + WaitDelta(d.wait));
    a.(waitTime := Some(newWaitTime),
       staffAssigned := Max(1, a.staffAssigned + StaffDelta(d.staff)),
       revenue := a.revenue + RevenueIncrease(d.revenue) as real,
       queueLength := Max(0, a.queueLength + QueueDelta(d.queue)),
       lastUpdated := now)
  }

  /** The floors every attraction respects: staff at least 1, a queue that is never negative,
      a wait time that is null or at least 5, and a non-negative revenue. */
  predicate AttractionValid(a: Attraction) {
    a.staffAssigned >= 1 && a.queueLength >= 0 && a.revenue >= 0.0 &&
    (a.waitTime.Some? ==> a.waitTime.value >= 5)
  }

  predicate RosterValid(roster: seq<Attraction>) {
    forall i :: 0 <= i < |roster| ==> AttractionValid(roster[i])
  }

  /** The roster a fetch saves: the same attractions in the same order, each with its own
      fluctuation applied, and every wait time set. */
  function NextRoster(roster: seq<Attraction>, draws: seq<AttractionDraws>, now: string): (r: seq<Attraction>)
    requires |draws| == |roster| && AllDrawsValid(draws)
    ensures |r| == |roster|
    ensures forall i :: 0 <= i < |r| ==> r[i] == FluctuateAttraction(roster[i], draws[i], now)
    ensures forall i :: 0 <= i < |r| ==>
              r[i].(waitTime := roster[i].waitTime, staffAssigned := roster[i].staffAssigned,
                    revenue := roster[i].revenue, queueLength := roster[i].queueLength,
                    lastUpdated := roster[i].lastUpdated) == roster[i]
    ensures forall i :: 0 <= i < |r| ==> r[i].revenue > roster[i].revenue && r[i].lastUpdated == now
    ensures forall i :: 0 <= i < |r| ==>
              r[i].staffAssigned >= 1 && r[i].queueLength >= 0 &&
              r[i].waitTime.Some? && r[i].waitTime.value >= 5
    ensures RosterValid(roster) ==> RosterValid(r)
  {
    seq(|roster|, i requires 0 <= i < |roster| => FluctuateAttraction(roster[i], draws[i], now))
  }

  /** One round of samples per fetch fits the roster it is applied to. */
  predicate RoundsFit(size: nat, rounds: seq<seq<AttractionDraws>>) {
    forall k :: 0 <= k < |rounds| ==> |rounds[k]| == size && AllDrawsValid(rounds[k])
  }

  /** The roster after a run of fetches: round k of samples and time stamp k for fetch k. */
  function RosterAfter(roster: seq<Attraction>, rounds: seq<seq<AttractionDraws>>, nows: seq<string>): (r: seq<Attraction>)
    requires RoundsFit(|roster|, rounds) && |nows| == |rounds|
    ensures |r| == |roster|
  {
    if rounds == [] then roster
    else
      var n := |rounds| - 1;
      NextRoster(RosterAfter(roster, rounds[..n], nows[..n]), rounds[n], nows[n])
  }

  /** Over any run of fetches an attraction keeps its place and identity, and its revenue
      grows by 50 to 500 per fetch. */
  lemma {:induction false} RevenueAcrossFetches(roster: seq<Attraction>, rounds: seq<seq<AttractionDraws>>,
                                                nows: seq<string>, i: nat)
    requires RoundsFit(|roster|, rounds) && |nows| == |rounds| && i < |roster|
    ensures RosterAfter(roster, rounds, nows)[i].id == roster[i].id
    ensures RosterAfter(roster, rounds, nows)[i].name == roster[i].name
    ensures RosterAfter(roster, rounds, nows)[i].status == roster[i].status
    ensures roster[i].revenue + 50.0 * |rounds| as real <= RosterAfter(roster, rounds, nows)[i].revenue
    ensures RosterAfter(roster, rounds, nows)[i].revenue <= roster[i].revenue + 500.0 * |rounds| as real
  {
    if rounds != [] {
      var n := |rounds| - 1;
      RevenueAcrossFetches(roster, rounds[..n], nows[..n], i);
    }
  }

  // ---------------------------------------------------------------------------------------
  // The module state and its fetch operations

  class Simulator {
    var totalVisitors: int
    var ticketSales: array<TicketEntry>
    var currentVisitors: int
    var attractions: seq<Attraction>

    /** What holds between fetches: a non-negative counter, one entry per weekday in calendar
        order, a gauge within capacity, and a roster that respects its floors. */
    ghost predicate Valid()
      reads this, ticketSales
    {
      totalVisitors >= 0 &&
      ticketSales.Length == |WeekDays| &&
      (forall i :: 0 <= i < ticketSales.Length ==> ticketSales[i].day == WeekDays[i]) &&
      (forall i :: 0 <= i < ticketSales.Length ==> ticketSales[i].tickets >= 0) &&
      0 <= currentVisitors <= MaxCapacity &&
      RosterValid(attractions)
    }

    /** The module's starting mock values; `now` stands for the load-time time stamp. */
    constructor (now: string)
      ensures Valid() && fresh(ticketSales)
      ensures totalVisitors == SeedTotalVisitors
      ensures ticketSales[..] == SeedTicketSales
      ensures currentVisitors == SeedCurrentVisitors
      ensures attractions == SeedAttractions(now)
    {
      totalVisitors := SeedTotalVisitors;
      ticketSales := new TicketEntry[|SeedTicketSales|](i requires 0 <= i < |SeedTicketSales| => SeedTicketSales[i]);
      currentVisitors := SeedCurrentVisitors;
      attractions := SeedAttractions(now);
    }

    /** fetchTodayVisitors: add a jump of 50 to 249 to the counter and report it beside the
        fixed figure for yesterday. */
    method FetchTodayVisitors(u: real) returns (r: TodayVisitorsStats)
      requires Valid() && IsUnit(u)
      modifies this`totalVisitors
      ensures Valid()
      ensures totalVisitors == old(totalVisitors) + VisitorIncrement(u)
      ensures old(totalVisitors) + 50 <= totalVisitors <= old(totalVisitors) + 249
      ensures r == TodayVisitorsStats(totalVisitors, YesterdaysVisitors)
    {
      var newVisitors := VisitorIncrement(u);
      totalVisitors := totalVisitors + newVisitors;
      r := TodayVisitorsStats(totalVisitors, YesterdaysVisitors);
    }

    /** fetchTicketSales: copy the series into a fresh array, raise the last day, save the copy
        as the state and return it. The array saved before is left as it was. */
    method FetchTicketSales(u: real) returns (r: array<TicketEntry>)
      requires Valid() && IsUnit(u)
      modifies this`ticketSales
      ensures Valid()
      ensures fresh(ticketSales) && r == ticketSales
      ensures ticketSales[..] == NextTicketSales(old(ticketSales[..]), u)
      ensures old(ticketSales)[..] == old(ticketSales[..])
    {
      var source := ticketSales;
      var newData := new TicketEntry[source.Length];
      var i := 0;
      while i < source.Length
        invariant 0 <= i <= source.Length == newData.Length
        invariant newData[..i] == source[..i]
      {
        newData[i] := source[i];
        i := i + 1;
      }
      assert newData[..] == source[..] by {
        assert newData[..] == newData[..i] && source[..] == source[..i];
      }
      var lastIndex := newData.Length - 1;
      ghost var before := newData[..];
      newData[lastIndex] := newData[lastIndex].(tickets := newData[lastIndex].tickets + TicketIncrement(u));
      assert newData[..] == NextTicketSales(before, u);
      ticketSales := newData;
      r := ticketSales;
    }

    /** fetchCapacityStats: below capacity admit 50 to 349 visitors, clamped at the cap; then
        report the gauge with its rounded percentage. */
    method FetchCapacityStats(u: real) returns (r: CapacityStats)
      requires Valid() && IsUnit(u)
      modifies this`currentVisitors
      ensures Valid()
      ensures currentVisitors == NextCurrentVisitors(old(currentVisitors), u)
      ensures r == CapacityStats(currentVisitors, CapacityPercentage(currentVisitors))
      ensures 0 <= r.capacityPercentage <= 100
    {
      if currentVisitors < MaxCapacity {
        var increment := CapacityIncrement(u);
        currentVisitors := Min(currentVisitors + increment, MaxCapacity);
      }
      var capacityPercentage := CapacityPercentage(currentVisitors);
      r := CapacityStats(currentVisitors, capacityPercentage);
    }

    /** fetchAttractions: derive a new value for every attraction, in order, save the new
        roster as the state and return it. */
    method FetchAttractions(draws: seq<AttractionDraws>, now: string) returns (r: seq<Attraction>)
      requires Valid() && |draws| == |attractions| && AllDrawsValid(draws)
      modifies this`attractions
      ensures Valid()
      ensures attractions == NextRoster(old(attractions), draws, now)
      ensures r == attractions
    {
      var newData := NextRoster(attractions, draws, now);
      attractions := newData;
      r := newData;
    }
  }

  /** The worked examples of the simulator, from its seed values. */
  method SeededScenarios()
  {
    var sim := new Simulator("2025-01-01T00:00:00.000Z");
    // a jump of exactly 100 visitors: floor(0.25 * 200) + 50
    var visitors := sim.FetchTodayVisitors(0.25);
    assert visitors == TodayVisitorsStats(2175, 4023);
    var sales := sim.FetchTicketSales(0.0);
    assert sales[..6] == SeedTicketSales[..6];
    assert sales[6] == TicketEntry("Sun", 2132);
    var roster := sim.FetchAttractions(seq(3, _ => AttractionDraws(0.0, 0.0, 0.5, 0.0, 0.5)), "later");
    assert roster[1].waitTime == Some(10);
    assert roster[0].waitTime == Some(40);
    // a gauge of 4900 admitting 300 more is clamped at the cap: floor(5/6 * 300) + 50
    sim.currentVisitors := 4900;
    var gauge := sim.FetchCapacityStats(5.0 / 6.0);
    assert gauge == CapacityStats(5000, 100);
  }
}


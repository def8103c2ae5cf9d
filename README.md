# Attraction dashboard metrics simulator, in Dafny

This project models the data side of an operations dashboard for a theme park. The
simulator in `src/api/stats.ts` keeps four pieces of module state:

- the visitor counter;
- the seven-day ticket-sales series;
- the capacity gauge;
- the attraction roster.

Each `fetch*` call nudges one of them by a bounded random amount, enforces that domain's
floor, ceiling or monotonicity rule, saves the result and returns it. Beside it sit two
pure classifiers. They turn the gauge's percentage into a Low / Medium / High band for the
capacity card (`CapacityCard.tsx`) and a colour and offset for its progress bar
(`progress.tsx`).

Files and modules:

- `random.dfy` (`Random`): `Math.floor(Math.random() * span) + base` as `Draw(u, span, base)`.
  The `Math.random()` sample `u` is a parameter with 0 <= u < 1. The exact integer range is
  proved, and so is the fact that every value in it can be drawn.
- `stats.dfy` (`Stats`): the entity types and one pure step function per domain. Each step
  function comes with lemmas about runs of fetches. The module state is the class
  `Simulator`, with one field per domain and one method per `fetch*` function. Each method
  is specified by its step function.
- `capacity_card.dfy` (`CapacityCard`): `getStatusLabel` and `getStatusColor`.
- `progress.dfy` (`Progress`): `getProgressColor` and the indicator offset computed by
  `Progress`.
- `dashboard.dfy` (`Dashboard`): what the card and bar show for gauges the simulator can hold.
- `options.dfy` (`Options`): `Option` for TypeScript's `T | null`.

Where the source's comments and its code say different things, the model follows the code:

- `src/api/stats.ts:41` copies the ticket series "to avoid mutating accidentally". But
  lines 53-55 save the copy as the state and return that same array, so whoever receives it
  holds a reference to the state until the next fetch. `fetchAttractions` does the same at
  lines 173-175: it saves the mapped roster and returns that same array. Both copies are also
  shallow. The new ticket series shares its six unchanged entry objects with the old one, and
  the returned attraction objects are the state's own. The model states the ticket half:
  `FetchTicketSales` returns `r == ticketSales`, a fresh array, and leaves the previously
  saved array unchanged. The roster and the entries are values in the model, so their
  aliasing is listed under "Left out".
- `src/api/stats.ts:140` describes the wait-time change as being "for open rides". The
  expression at lines 142-145 never reads `status`. A null wait time is replaced on the first
  fetch, and a set one moves, whatever the ride's status. The model does the same.

## Model

| member | source | states |
|---|---|---|
| `Random.Draw` | src/api/stats.ts:14 | `Math.floor(u * span) + base` lies in [base, base + span - 1] for every `Math.random()` sample u in [0, 1) |
| `Random.DrawCovers` | src/api/stats.ts:14 | every integer in [base, base + span - 1] is produced by some sample in [0, 1), so the range is exact |
| `Stats.VisitorIncrement` | src/api/stats.ts:14 | the visitor jump lies in [50, 249] |
| `Stats.VisitorsGrowAcrossFetches` | src/api/stats.ts:7-20 | between fetch i and fetch j the counter grows by at least 50·(j−i) and at most 249·(j−i) |
| `Stats.VisitorsStrictlyIncrease` | src/api/stats.ts:10-21 | the counter after any fetch is strictly greater than after any earlier fetch |
| `Stats.Simulator.FetchTodayVisitors` | src/api/stats.ts:10-21 | the counter rises by exactly the drawn jump, in [50, 249]; the result carries the new total and yesterday's fixed 4023 |
| `Stats.TicketIncrement` | src/api/stats.ts:46 | the ticket increment lies in [50, 549] |
| `Stats.NextTicketSales` | src/api/stats.ts:41-53 | the new series has the same length and the same day labels in the same order, every entry but the last is unchanged, and the last day's tickets rise by 50 to 549 |
| `Stats.TicketSalesAcrossFetches` | src/api/stats.ts:38-56 | over k fetches the labels and all entries but the last stay as they were, and the last day gains between 50·k and 549·k tickets |
| `Stats.Simulator.FetchTicketSales` | src/api/stats.ts:38-56 | the state becomes a fresh array holding the next series, that array is what is returned, and the array saved before is left unmodified |
| `Stats.CapacityIncrement` | src/api/stats.ts:70 | the admitted amount lies in [50, 349] |
| `Stats.NextCurrentVisitors` | src/api/stats.ts:69-72 | below the cap the gauge rises strictly, to between min(old + 50, 5000) and min(old + 349, 5000); at the cap it is unchanged |
| `Stats.CapacityPercentage` | src/api/stats.ts:74 | `(current + 25) / 50` equals Math.round(current / 5000 · 100) over the reals, lies in [0, 100] for a gauge within capacity, and is 100 at saturation |
| `Stats.FloorOfQuotient` | src/api/stats.ts:74 | the real quotient n / m rounds down to the integer quotient n / m |
| `Stats.CapacityAcrossFetches` | src/api/stats.ts:63-72 | from a gauge within capacity every run of fetches keeps it within capacity, never lowers it, and raises it to at least min(start + 50·k, 5000) after k fetches |
| `Stats.SaturationIsFinal` | src/api/stats.ts:69-72 | once the gauge is at 5000, no run of fetches changes it |
| `Stats.SeedGaugeFillsWithinHundredFetches` | src/api/stats.ts:63-74 | from the seed of 300, after 100 fetches the gauge is full and reads 100 % |
| `Stats.Simulator.FetchCapacityStats` | src/api/stats.ts:66-80 | the gauge takes its next value, stays within [0, 5000], and the result reports it with its rounded percentage in [0, 100] |
| `Stats.WaitDelta` | src/api/stats.ts:141 | the wait-time delta lies in [−5, 9] |
| `Stats.FreshWaitTime` | src/api/stats.ts:144 | a fresh wait time lies in [10, 39] |
| `Stats.StaffDelta` | src/api/stats.ts:148 | the staff delta lies in [−1, 1] |
| `Stats.RevenueIncrease` | src/api/stats.ts:152 | the revenue increase lies in [50, 500] |
| `Stats.QueueDelta` | src/api/stats.ts:156 | the queue delta lies in [−10, 10] |
| `Stats.FluctuateAttraction` | src/api/stats.ts:139-169 | id, name, status, capacity and fast pass are carried over. Revenue rises by 50 to 500. Staff lies in [max(1, old−1), max(1, old+1)] and the queue in [max(0, old−10), max(0, old+10)]. A null wait becomes a value in [10, 39]; a set wait w becomes a value in [max(5, w−5), max(5, w+9)]. The time stamp becomes the fetch's |
| `Stats.NextRoster` | src/api/stats.ts:139-170 | same length and order, entry i being entry i after `FluctuateAttraction`. Each entry keeps its identity, status, capacity and fast pass. Each entry's revenue strictly rises, staff ≥ 1, queue ≥ 0, and its wait time is set and ≥ 5. The roster's floors are preserved |
| `Stats.RevenueAcrossFetches` | src/api/stats.ts:151-153 | over k fetches each attraction keeps its id, name and status, and its revenue grows by between 50·k and 500·k |
| `Stats.Simulator.FetchAttractions` | src/api/stats.ts:136-176 | the roster state becomes the next roster, which is also returned, and the simulator's invariant is kept |
| `Stats.Simulator.constructor` | src/api/stats.ts:7-134 | the seed state: 2075 visitors, the seeded week of ticket sales, 300 visitors in the park, the three seeded attractions, and the simulator's invariant |
| `CapacityCard.StatusLabel` | src/components/ui/CapacityCard.tsx:26-30 | Low exactly when the percentage is below 33, Medium exactly in [33, 66), High exactly from 66 up |
| `CapacityCard.StatusColor` | src/components/ui/CapacityCard.tsx:32-36 | green badge exactly for Low, yellow exactly for Medium, red exactly for High |
| `CapacityCard.StatusLabelMonotone` | src/components/ui/CapacityCard.tsx:26-30 | a larger percentage never gives a lower band |
| `CapacityCard.StatusLabelEnds` | src/components/ui/CapacityCard.tsx:26-36 | 100 % is High with a red badge; 0 % is Low with a green badge |
| `Progress.ProgressColor` | src/components/ui/progress.tsx:6-11 | always one of the three bar classes, and green when the percentage is null or omitted |
| `Progress.ProgressColorAgreesWithStatus` | src/components/ui/progress.tsx:8-10 | the bar's class is green, yellow or red exactly when the card's label is Low, Medium or High, and it is a prefix of the card's badge class |
| `Progress.RenderIndicator` | src/components/ui/progress.tsx:18-35 | the offset is 100 − safeValue, in [0, 100] when the value is; a missing value gives a green bar shifted by the full 100 |
| `Dashboard.GaugeRendersWithinBar` | src/components/ui/CapacityCard.tsx:23-54 | for every gauge within capacity the card's percentage is in [0, 100], the bar's offset is in [0, 100], and the bar's colour class opens the badge's |
| `Dashboard.SaturatedGaugeIsHigh` | src/components/ui/CapacityCard.tsx:23-54 | a full gauge reads 100 %, High, with a red badge and a red, unshifted bar |
| `Dashboard.HighBandStartsAt3275` | src/components/ui/CapacityCard.tsx:23-30 | the card shows High exactly when at least 3275 visitors are in the park |

## Left out

- The 500 ms `setTimeout` delay before each fetch resolves is timing only. Each fetch is a synchronous method.
- `Math.random()` is not modelled as a source. Each sample is a parameter, required to lie in [0, 1) as `Math.random()` guarantees.
- `new Date().toISOString()` is a wall-clock call. The time stamp is a string parameter: of the constructor for the seed roster, and of `FetchAttractions` for a fetch.
- `Stats.Simulator.FetchAttractions` / `Stats.NextRoster`: the roster is a `seq` of datatype values, so the model does not capture that the returned array is the state's own array (`src/api/stats.ts:173-175`), nor that the returned attraction objects are shared with the state. No consumer in the repository mutates them: only `AttractionsTable.tsx` reads the roster, and it does not write to it.
- `Stats.Simulator.FetchAttractions` / `Stats.NextRoster`: one time stamp `now` serves the whole fetch, while the source reads the clock once per attraction (`src/api/stats.ts:168` inside the `map`; the seeds at lines 108, 120 and 132). The model therefore does not capture the attractions of one fetch carrying different time stamps.
- `Stats.Simulator.FetchTicketSales`: the ticket entries are datatype values, so the model does not capture that the new series shares its six unchanged entry objects with the old one (`src/api/stats.ts:42`). Only the array itself is modelled as a shared reference. Its one consumer, `SalesChart.tsx` (line 39), only reads it.
- Floating point is not modelled. Revenue is a Dafny `real` with the seeds' decimal values. The percentage is computed exactly over the reals and the integers, not in IEEE doubles, so a double's rounding at a .5 boundary is not reproduced.
- NaN and infinite percentages are not modelled. The card and bar classifiers take real percentages.
- The CSS text `translateX(-…%)` is not modelled; `RenderIndicator` gives only the number inside it.
- The polling layer is not part of this model. `src/hooks/useTodayVisitors.ts` only configures `useQuery` from `@tanstack/react-query`, whose refetch timers, deduplication of in-flight requests and retention of the last good snapshot live in that library, whose source is not available.
- The CSV export in `src/components/ui/AttractionsTable.tsx` is not modelled. It depends on the table library's row model, locale currency formatting and a browser download.
- Rendering is not modelled. That covers the JSX of the cards, chart and table, and the CountUp animation start.

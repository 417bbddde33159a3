# Cornerstone manufacturing network: the tool functions, modelled in Dafny

Cornerstone is a demonstration network of small US manufacturers coordinated by a set of
agents. Each agent is backed by deterministic tool functions over in-memory tables. This
project models those tool functions and proves what they promise:

- **the supply-chain orchestrator** (`Cornerstone`, `DataMocks`) —
  - the greedy bid optimizer, which keeps the bids whose maker has exactly the required skill, stable-sorts them by unit price and takes `min(remaining, batch)` from each until the order is filled;
  - the maker listing;
  - the maker lookup.
- **the bid coordinator** (`BidCoordinator`, `BidWindows`) — a store of bid windows keyed by job id, as a class with a `map` field:
  - a window is created if absent and goes from OPEN to CLOSED once;
  - winners are recorded;
  - also covered: the status report, the time-remaining clamp and the notification templates with `str.format`'s failure on a missing field.
- **the timeline manager** (`Timeline`) — the store of each maker's completion date:
  - an update overwrites the date before it is parsed;
  - the change is classified as delayed, ahead or on track;
  - the project completion date is the greatest current date as a string.
- **the demand analyzer** (`Demand`, `TrendData`) — category and threshold filters, the stable descending sort by score, and the forecast lookup with its three errors.
- **the logistics coordinator** (`Logistics`, `ShippingData`) —
  - the pickup-schedule loop with its distance arithmetic;
  - the plan cache keyed by job id;
  - the shipping-cost rule;
  - the cheapest-method choice;
  - shipment counts;
  - the consolidation date.

Helper modules:
- `Wrappers` — Option and dictionary `.get`;
- `Collections` — filtering and a stable insertion sort standing for `sorted`;
- `Text` — `split`, `strip`, `upper`/`lower` and string order;
- `Sets` — finite-set cardinality and maxima;
- `Rounding` — `round` halves-to-even on an exact quotient;
- `Dates` — proleptic Gregorian dates, `strptime("%Y-%m-%d")` and `strftime`.

Each `*_examples` module states and proves the tools' results on the program's own tables.

Units:
- money is in integer cents;
- demand scores are in tenths; confidences are in hundredths;
- coordinates are in ten-thousandths of a degree;
- bid-window instants are seconds (`Dates.Timestamp`);
- logistics dates are day ordinals (`Dates.Ordinal`);
- timeline dates stay strings, because the store keeps whatever the caller passes;
- the clock is a parameter (`now`, `today`).

## Model

| member | source | states |
|---|---|---|
| DataMocks.GetMakerById | cornerstone_agent/data_mocks.py:164-169 | a maker found has the requested id |
| DataMocks.GetMakerByIdSpec | cornerstone_agent/data_mocks.py:164-169 | None exactly when no maker has the id; otherwise the first maker in list order with it |
| DataMocks.GetMakerByIdAt | cornerstone_agent/data_mocks.py:166-168 | the maker at position k is returned when no earlier maker shares its id |
| DataMocks.MockMakerIdsDistinct | cornerstone_agent/data_mocks.py:7-98 | the ten registry ids are pairwise distinct |
| Cornerstone.EligibleSpec | cornerstone_agent/agent.py:27-31 | the filtered bids are at most the input bids; each kept bid is in the input and its maker is registered with exactly the skill; each eligible input bid is kept |
| Cornerstone.EligibleAppend | cornerstone_agent/agent.py:28-31 | the filter keeps input order: one more bid in the input appends it to the output exactly when it is eligible |
| Cornerstone.FilterBySkill | cornerstone_agent/agent.py:26-31 | the filter loop computes the eligible bids in input order |
| Cornerstone.SelectGreedy | cornerstone_agent/agent.py:42-77 | the greedy loop, with early exit and the skip of unregistered makers, leaves the walk state Allocate defines |
| Cornerstone.OptimizeBids | cornerstone_agent/agent.py:12-98 | the method returns the error when no bid is eligible and otherwise the report of the greedy walk over the price-sorted bids |
| Cornerstone.NoSkillMatchIsError | cornerstone_agent/agent.py:33-37 | the result is the error exactly when no bid's maker has exactly the required skill (case-sensitive) |
| Cornerstone.EligibleSorted | cornerstone_agent/agent.py:40 | the sorted bids are in price order, a permutation of the filtered bids, and every maker resolves |
| Cornerstone.WinnersFollowPriceOrder | cornerstone_agent/agent.py:40-72 | the k-th winner comes from the k-th cheapest eligible bid (a prefix of the stable price order) with that bid's maker, price and lead time |
| Cornerstone.QuantityCaps | cornerstone_agent/agent.py:49-58 | each winner was taken while units were still needed and got min(remaining, max_batch_size) |
| Cornerstone.QuantityConservation | cornerstone_agent/agent.py:58-92 | quantity_fulfilled is the sum of assigned quantities and never exceeds the request; num_manufacturers counts the winners |
| Cornerstone.CostAndLeadTime | cornerstone_agent/agent.py:46-89 | total cost is the sum of quantity × price; lead time is the winners' maximum, 0 with no winners |
| Cornerstone.GreedySaturation | cornerstone_agent/agent.py:49-58 | every winner but the last takes its whole batch; the walk stops once the need is met |
| Cornerstone.FulfilledIffEnoughCapacity | cornerstone_agent/agent.py:80-91 | FULFILLED exactly when the eligible batches cover the request; otherwise everything on offer is placed |
| Cornerstone.GreedyIsCheapest | cornerstone_agent/agent.py:14-77 | no feasible allocation over the eligible bids that places as many units costs less than the greedy choice |
| Cornerstone.AllocateTotals | cornerstone_agent/agent.py:61-77 | the walk's cost, lead time and remaining need are the sums and maximum over its winners |
| Cornerstone.AllocatePicks | cornerstone_agent/agent.py:53-72 | the k-th winner is built from the k-th bid and its maker |
| Cornerstone.AllocateQuantities | cornerstone_agent/agent.py:49-58 | the k-th winner's quantity is the smaller of the need left and its batch |
| Cornerstone.TakesNeedCons | cornerstone_agent/agent.py:49-58 | a first winner that took the smaller of the need and its batch keeps every later winner's share equal to the smaller of the need then left and its batch |
| Cornerstone.AllocateRemaining | cornerstone_agent/agent.py:49-77 | from a non-negative need the need left never goes negative; a non-positive need takes nobody |
| Cornerstone.AllocateCapacity | cornerstone_agent/agent.py:48-77 | the need left is max(0, request − offered capacity) |
| Cornerstone.ListManufacturers | cornerstone_agent/agent.py:124-149 | an empty skill lists every maker in order; otherwise exactly the makers whose skill matches ignoring case, each as often as it is registered; the count is the list length |
| Cornerstone.ListManufacturersAppend | cornerstone_agent/agent.py:124-127 | the listing keeps registry order: one more maker appends it exactly when the skill is empty or matches ignoring case |
| CornerstoneExamples.MockBidsResolve | cornerstone_agent/data_mocks.py:101-150 | every bid names a registered maker, so the loop's `continue` never fires |
| CornerstoneExamples.CncEligible | cornerstone_agent/data_mocks.py:101-150 | seven bids are CNC; MAKER_B's 3D bid is excluded |
| CornerstoneExamples.CncByPrice | cornerstone_agent/data_mocks.py:101-150 | the CNC bids in price order: C, J, A, H, D, E, G |
| CornerstoneExamples.KnickOptimized | cornerstone_agent/data_mocks.py:101-119 | 5000 CNC units: C 2500 at 220¢, J 2000 at 235¢, A 500 at 245¢; 1142500¢, 12 days, FULFILLED |
| CornerstoneExamples.ShortfallOptimized | cornerstone_agent/data_mocks.py:101-150 | 12000 units: all seven CNC makers take full batches, 10800 fulfilled, PARTIALLY_FULFILLED |
| CornerstoneExamples.LowerCaseSkillRejected | cornerstone_agent/agent.py:30 | "cnc" matches no bid: the optimizer's skill match is case-sensitive |
| BidWindows.GetBidWindow | bid_coordinator_agent/bid_windows.py:68-70 | the stored window for a known id, None otherwise |
| BidWindows.TimeRemaining | bid_coordinator_agent/bid_windows.py:72-78 | never negative; 0 once the window has closed; otherwise the hours left rounded to a tenth |
| BidWindows.TimeRemainingRunsDown | bid_coordinator_agent/bid_windows.py:76-77 | a later instant never leaves more time |
| BidWindows.TimeRemainingWholeHours | bid_coordinator_agent/bid_windows.py:77-78 | a whole number of hours is reported exactly |
| BidWindows.InitialWindowsShape | bid_coordinator_agent/bid_windows.py:9-42 | KNICK_2025 is OPEN without closed_at or winners; WIDGET_2024 is CLOSED with both |
| BidWindows.PlaceholdersSpec | bid_coordinator_agent/bid_windows.py:45-66 | a name is a placeholder exactly when some template piece is that field |
| BidWindows.FormatDefined | bid_coordinator_agent/agent.py:59-199 | `format` fails exactly when some placeholder has no argument |
| BidWindows.FormatUsesOnlyPlaceholders | bid_coordinator_agent/agent.py:199-205 | arguments that agree on the placeholders give the same text |
| BidWindows.TemplateFields | bid_coordinator_agent/bid_windows.py:48-60 | the winner template's fields are exactly job_id, quantity, price, total, deadline; the opening template's fields are among those create supplies |
| BidCoordinator.AfterCreate | bid_coordinator_agent/agent.py:29-56 | an existing job leaves the store unchanged; a new one adds an OPEN window with 0 bids, no participants and closes_at = opened_at + duration; nothing else changes |
| BidCoordinator.CreateReply | bid_coordinator_agent/agent.py:29-79 | the error, naming the existing status, exactly when the job exists; otherwise the OPEN report with the two instants |
| BidCoordinator.DefaultWindowFullTime | bid_coordinator_agent/agent.py:13-56 | with the default `duration_hours` of 96 a new window closes four days after opening and reports 96.0 hours remaining when it opens |
| BidCoordinator.Coordinator.CreateBidWindow | bid_coordinator_agent/agent.py:13-79 | the store becomes AfterCreate of the old store and the reply is CreateReply |
| BidCoordinator.Coordinator.GetBidStatus | bid_coordinator_agent/agent.py:93-126 | not found exactly when the id is absent; otherwise every report field is the stored window's value (name, status, opened and closing instants, bid count, participation, lowest, highest and average bid, absent ones staying absent as "N/A"), and time remaining is present exactly for an OPEN window and then is calculate_time_remaining's result |
| BidCoordinator.AfterClose | bid_coordinator_agent/agent.py:140-157 | an OPEN window becomes CLOSED with closed_at = now; unknown or CLOSED jobs leave the store unchanged; other windows are untouched |
| BidCoordinator.CloseReply | bid_coordinator_agent/agent.py:140-170 | not found exactly when absent; already closed exactly when CLOSED; otherwise the closing report |
| BidCoordinator.Coordinator.CloseBidWindow | bid_coordinator_agent/agent.py:129-170 | the store becomes AfterClose and the reply is CloseReply |
| BidCoordinator.CloseTwiceFails | bid_coordinator_agent/agent.py:148-152 | closing a second time is an error: close is not idempotent |
| BidCoordinator.WinnerMessageText | bid_coordinator_agent/agent.py:199-205 | the winner message formats without error into its fixed text |
| BidCoordinator.NoticesSpec | bid_coordinator_agent/agent.py:198-211 | one notice per id, in order, each with the message and the instant |
| BidCoordinator.AfterNotify | bid_coordinator_agent/agent.py:185-214 | the job's window records the parsed id list as winners; no status changes; other windows are untouched |
| BidCoordinator.NotifyReply | bid_coordinator_agent/agent.py:185-224 | not found exactly when the job is absent; otherwise one notice per parsed id |
| BidCoordinator.NotifyCounts | bid_coordinator_agent/agent.py:194-220 | winners_notified is the number of comma-separated items (commas + 1), duplicates included |
| BidCoordinator.Coordinator.NotifyWinners | bid_coordinator_agent/agent.py:173-224 | the store becomes AfterNotify and the reply is NotifyReply |
| BidCoordinator.NeverReopens | bid_coordinator_agent/agent.py:56-214 | no sequence of calls removes a window or reopens a CLOSED one; "CLOSED exactly when closed_at is recorded" is preserved |
| BidCoordinator.ApplyKeepsClosingRecorded | bid_coordinator_agent/agent.py:56-157 | each call keeps "CLOSED exactly when closed_at is recorded" |
| TrendData.GetProductById | demand_agent/trend_data.py:101-106 | a product found has the requested id |
| TrendData.GetProductByIdSpec | demand_agent/trend_data.py:101-106 | None exactly when no product has the id; otherwise the first product with it |
| TrendData.TrendingProductsShape | demand_agent/trend_data.py:7-58 | product ids are distinct; every demand score lies in 0–10 |
| TrendData.DemandForecastsShape | demand_agent/trend_data.py:83-99 | every forecast covers the three timeframes; volume rises and confidence falls with the horizon; PROD_004 and PROD_005 have none |
| Demand.ByScoreSpec | demand_agent/agent.py:31-66 | the sort is a permutation in non-increasing score order |
| Demand.ByScoreStable | demand_agent/agent.py:31-66 | products with equal scores keep their input order |
| Demand.AnalyzeMarketTrends | demand_agent/agent.py:24-45 | count = list length; insights only for an exact signal key; recommendation is the first product or None |
| Demand.AnalyzeSpec | demand_agent/agent.py:24-45 | all products for an empty category, else exactly those matching ignoring case, each as often as it occurs in the table; highest score first; the recommendation is a top scorer |
| Demand.CategoryCounts | demand_agent/agent.py:28 | any reordering of the category filter holds exactly the matching products, each as often as the table does |
| Demand.GetProductRecommendations | demand_agent/agent.py:63-74 | the count is the list length and top_pick is the first product or None |
| Demand.RecommendationsSpec | demand_agent/agent.py:63-74 | exactly the products scoring at least the threshold, each as often as it occurs in the table, in non-increasing order; top_pick scores highest |
| Demand.RecommendationsShrink | demand_agent/agent.py:63 | raising the threshold never adds a recommendation |
| Demand.AdviceFor | demand_agent/agent.py:129 | MANUFACTURE exactly when confidence > 0.80 |
| Demand.CalculateDemandForecast | demand_agent/agent.py:93-132 | a report carries the requested id and timeframe and the advice for its confidence |
| Demand.ForecastOutcomes | demand_agent/agent.py:93-129 | errors in order (unknown product, no forecast, unknown timeframe), each exactly when its condition holds; otherwise the product's name, score and trend and the forecast's volume and confidence, with MANUFACTURE exactly above 0.80 |
| DemandExamples.ForecastExamples | demand_agent/trend_data.py:7-99 | PROD_001 is worth manufacturing at 30 days, only monitoring at 90; PROD_004 has no forecast; PROD_999 is unknown |
| DemandExamples.RecommendationsAtEight | demand_agent/trend_data.py:7-58 | at 8.0 the recommendations are PROD_001, PROD_003, PROD_005, with PROD_001 on top |
| DemandExamples.RecommendationsAtDefault | demand_agent/agent.py:51-66 | at the default threshold 7.0 the recommendations are PROD_001, PROD_003, PROD_005, PROD_002; PROD_004 (6.9) is left out |
| ShippingData.Rate | logistics_agent/shipping_data.py:69 | the table rate of a known mode, the ground rate otherwise |
| ShippingData.ShippingCost | logistics_agent/shipping_data.py:67-71 | the cost is within half a cent of rate × weight / 100 |
| ShippingData.ShippingCostExact | logistics_agent/shipping_data.py:15-71 | every rate is whole dollars, so the cost is exactly dollar rate × weight |
| ShippingData.ShippingCostLinear | logistics_agent/shipping_data.py:67-71 | cost is additive in weight |
| ShippingData.ShippingCostMonotone | logistics_agent/shipping_data.py:67-71 | more weight never costs less |
| ShippingData.GroundIsCheapest | logistics_agent/shipping_data.py:15-19 | ground < express < freight; ground is never dearer, and strictly cheaper at positive weight |
| ShippingData.FindNearestConsolidationCenter | logistics_agent/shipping_data.py:73-76 | Chicago, the first center, for any input |
| ShippingData.GetLogisticsPlan | logistics_agent/shipping_data.py:63-65 | the stored plan for a known job, None otherwise |
| ShippingData.LogisticsPlansShape | logistics_agent/shipping_data.py:22-39 | KNICK_2025's 2150 miles is the sum of its pickup distances; it is consolidated at the first center and has no manufacturer count |
| Logistics.ScheduleShape | logistics_agent/agent.py:57-68 | one entry per distinct id; each pickup between 1 and n days out with distance 500 + 200·(offset − 1); total ≥ 500·n |
| Logistics.ScheduleDistinct | logistics_agent/agent.py:57-68 | for distinct ids the k-th maker is k + 1 days out at 500 + 200·k miles; total 500n + 100n(n − 1) |
| Logistics.ScheduleDuplicate | logistics_agent/agent.py:57-68 | a repeated id keeps its last entry, but every occurrence adds to the total distance |
| Logistics.BuildSchedule | logistics_agent/agent.py:54-68 | the loop builds the schedule and total the specification defines |
| Logistics.NewPlanSpec | logistics_agent/agent.py:51-90 | n manufacturers, 500n lb by ground at 22500n cents, delivery n + 3 days out, Chicago, one entry per listed id |
| Logistics.AfterPlan | logistics_agent/agent.py:39-93 | a job with a plan keeps it; otherwise the new plan is stored; other plans are untouched |
| Logistics.PlanReply | logistics_agent/agent.py:39-100 | retrieved exactly when a plan exists; the plan returned is the stored one |
| Logistics.LogisticsCoordinator.PlanLogistics | logistics_agent/agent.py:17-101 | the store becomes AfterPlan and the reply PlanReply |
| Logistics.PlanTwice | logistics_agent/agent.py:39-48 | planning a job again, with any makers on any day, returns the stored plan and changes nothing |
| Text.CommaItemsCount | logistics_agent/agent.py:30-36 | parsing always gives at least one id (commas + 1), so the "No manufacturers" branch cannot be taken |
| Logistics.Cheapest | logistics_agent/agent.py:135 | `min` with a key: the first of ground, express, freight with the least cost |
| Logistics.LogisticsCoordinator.OptimizeShippingCosts | logistics_agent/agent.py:117-151 | no plan, the KeyError for a plan without a manufacturer count, or the cheapest alternative, its saving over the current cost and all three costs |
| Logistics.OptimizeRecommendsGround | logistics_agent/agent.py:128-136 | ground is recommended; the saving is 0 when the plan already ships by ground |
| Logistics.NewPlanIsCheapest | logistics_agent/agent.py:72-136 | a plan made by plan_logistics already uses the cheapest method at its cheapest cost |
| Logistics.TrackShipments | logistics_agent/agent.py:165-189 | no tracking exactly for an unknown job; the counts are the shipments with each status and sum to at most the total |
| Logistics.StatusCountsBound | logistics_agent/agent.py:174-182 | three distinct statuses together count at most all shipments |
| Logistics.PickupDatesSpec | logistics_agent/agent.py:215 | the pickup dates are the entries' dates, non-empty for a non-empty schedule |
| Logistics.LogisticsCoordinator.CoordinateConsolidation | logistics_agent/agent.py:205-234 | no plan; the ValueError of `max` on an empty schedule; or a completion date that is the latest pickup date, a final shipment one day later, the shipment count and the plan's delivery date |
| LogisticsExamples.OptimizeKnick | logistics_agent/agent.py:125 | the stored KNICK_2025 plan has no manufacturer count, so optimizing it fails |
| LogisticsExamples.TrackKnick | logistics_agent/shipping_data.py:42-61 | KNICK_2025: 3 shipments, 1 in transit, 2 pending, 0 delivered |
| LogisticsExamples.CoordinateKnick | logistics_agent/shipping_data.py:22-39 | KNICK_2025 is complete on 2025-11-12 and ships on 2025-11-13 |
| Dates.FormatThenParse | timeline_agent/agent.py:66-67 | parsing the `%Y-%m-%d` text of a date gives the date back |
| Dates.OrdinalNextDay | logistics_agent/agent.py:60-219 | the day after a date has the next ordinal, across month and year ends |
| Text.LexMax | timeline_agent/agent.py:87-141 | `max` over strings: a member of the set, and no member sorts after it |
| Timeline.StatusFor | timeline_agent/agent.py:76-84 | delayed exactly when late, ahead exactly when early, on track exactly when neither |
| Timeline.Delay | timeline_agent/agent.py:65-73 | defined exactly when both dates parse; then new minus old in days |
| Timeline.LatestDate | timeline_agent/agent.py:87 | one of the current dates, and every current date sorts at or before it |
| Timeline.AfterUpdate | timeline_agent/agent.py:52-84 | an unknown maker changes nothing; otherwise only the maker's current date (always) and status (when both dates parse) change |
| Timeline.UpdateReply | timeline_agent/agent.py:52-103 | not found exactly when absent; invalid exactly when a date fails to parse; otherwise the delay against the previous current date, the reason or "Not specified", the new table and a completion date at least the new date |
| Timeline.TimelineStore.UpdateTimeline | timeline_agent/agent.py:38-105 | the store becomes AfterUpdate and the reply UpdateReply |
| Timeline.TimelineStore.GetTimelineStatus | timeline_agent/agent.py:119-153 | a maker's own fields or not found; for all makers the count, the latest date and the delayed count, which is at most the total |
| Timeline.TimelineStore.SendMessageToManufacturer | timeline_agent/agent.py:169-186 | not found exactly for an unknown maker; otherwise the message, instant, job and due date |
| Timeline.UpdateThenStatus | timeline_agent/agent.py:62-133 | after an update the maker's status shows the new date and its classification, with the original date kept |
| Timeline.InvalidDateStillStored | timeline_agent/agent.py:62-73 | when either date fails to parse the reply is the format error, yet the new date is stored with the old status and every other timeline is unchanged |
| TimelineExamples.DelayMakerA | timeline_agent/agent.py:13-35 | moving MAKER_A from 2025-11-02 to 2025-11-05 is 3 days late; completion stays MAKER_C's 2025-11-12 |
| TimelineExamples.InvalidMonth | timeline_agent/agent.py:62-73 | "2025-13-01" for MAKER_C is rejected but stored, and the status stays on track |
| Collections.SortBySpec | demand_agent/agent.py:31 | the stand-in for `sorted` returns a permutation in key order |
| Collections.SortByStable | cornerstone_agent/agent.py:40 | the stand-in for `sorted` is stable: elements with equal keys keep input order |
| Collections.Filter | demand_agent/agent.py:28 | a list comprehension keeps exactly the elements satisfying its condition |
| Collections.FilterCount | demand_agent/agent.py:28 | the comprehension keeps each satisfying element as often as it occurs and drops every other one |
| Text.CommaItems | bid_coordinator_agent/agent.py:194 | one stripped item per piece of the split on commas |
| Text.JoinSplit | bid_coordinator_agent/agent.py:194 | joining the pieces of a split gives the original string back |

## Left out

- Flask routes, the browser client, the hosted LLM agents and their instructions are not part of this model; they are HTTP and framework glue around the tool functions.
- Dafny has no default arguments. The source's defaults are constants that callers pass explicitly: `BidCoordinator.DefaultDurationHours` (96 hours), `Demand.DefaultMinScore` (7.0, as 70 tenths) and `Demand.DefaultTimeframe` ("30_days").
- Display text is not modelled: currency and percentage formatting, `summary`, `message` and `confirmation` strings, and the list of active manufacturers in the timeline errors. Error outcomes are datatype variants carrying the values the messages name.
- The clock (`datetime.now()`) is a parameter read once per call, and so are the bid-window instants (seconds) and the logistics "today" (a day ordinal). Dates the source formats with `strftime` (pickup and delivery dates, `closes_at`) are modelled as those numbers, not as text. `Dates.FormatDate` and `Dates.FormatThenParse` relate the two for the `%Y-%m-%d` format. The source reads the clock again for every notice's `sent_at` (bid_coordinator_agent/agent.py:210), for every pickup date (logistics_agent/agent.py:60) and for the final delivery date (logistics_agent/agent.py:75); the model gives all of them the same instant, so it does not capture a date rolling over in the middle of a call.
- Floating point is replaced by scaled integers: cents, tenths, hundredths, ten-thousandths of a degree. `calculate_time_remaining` rounds on an exact rational here, not on a binary float.
- ShippingData.ShippingCost: the source rounds a float to two decimals. The model rounds the exact product to a cent, which agrees because every rate is a whole number of dollars.
- Dates.ParseDate takes ASCII digits only, where `strptime` also takes other Unicode decimal digits. Like `strptime`, it takes one-digit months and days and a day padded with a space.
- `max` over pickup dates compares the `%Y-%m-%d` strings. The model compares day ordinals instead. Zero-padded dates of four-digit years sort the same way both ways.
- `str.upper`/`str.lower` are modelled on ASCII letters only; other letters are left unchanged. `str.strip` removes the whole set of characters `str.isspace` accepts (`Text.IsSpace`).
- Dates beyond year 9999 (where `timedelta` arithmetic overflows in Python) are not modelled.
- Cornerstone.GetJobDetails returns the job constant; it has no contract because it only returns data.
- create_bid_window's notification text is not built: its `closes_at` uses `strftime("%B %d, %Y at %I:%M %p")`. BidWindows.TemplateFields shows that every field the template needs is supplied.
- Dictionary order does not appear in the model. It would show in the order of the pickup schedule and of TIMELINES: `max` holds no matter the order, and the schedule is a `map`.
- The `participating_manufacturers`, `participation_rate` and bid statistics of a window are kept as stored values. Nothing in the core computes them.
- Shipment fields other than the status are carried but not interpreted.

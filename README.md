# RouteStitch route engine and supporting services, in Dafny

RouteStitch plans door-to-door journeys across India. Each journey is a set of
routes. Each route is a chain of legs (taxi, train, flight, bus, metro, auto).
This project models the part of the code base that computes these routes and
the services around it, and proves properties of the model:

- **Route engine** (`lib/services/mockRouteService.ts`).
  - The corridor lookup `getRouteKey`.
  - The booking-platform lists.
  - The three route builders. Each one wraps a scheduled train, flight or bus
    between a first-mile and a last-mile connector leg.
  - The live-train route and the generic fallback route.
  - The loops of `generateMockRoutes`, which number and collect the routes.
  - `rankRoutes`. It scores each route by min-max normalised cost and duration
    plus reliability, with weights chosen by preference. It assigns category
    labels in a fixed order, then sorts by score in place.
- **Train data** (`lib/services/trainApiService.ts`).
  - Turning a running-status response into a train record.
  - The overnight duration rule.
  - The fare table.
  - The train leg.
  - The popular-train lookup.
- **Live-train summary** (`lib/services/liveTrainService.ts`): choosing the
  current station, the delay and the upcoming stations.
- **Geocoding** (`routestitch-backend/src/services/geocoding.ts`).
  - The LRU cache, as a class over a key order and a value map.
  - The dynamic-programming edit distance, over a two-dimensional array.
  - The tiered city search and `getCityById`.
- **Sanitisation and rate limiting** (`routestitch-backend/src/utils/sanitize.ts`).
  - The character filters.
  - `sanitizeNumber`.
  - The e-mail and Indian phone validators.
  - The fixed-window rate limiter and its cleanup, as a class over a map.
- **Trip controller** (`routestitch-backend/src/controllers/trip.controller.ts`).
  - The per-address rate limiter, as a class over a map.
  - The request schema with its defaults.
  - The handler's 429 / 400 / 200 decision.
  - The two fixed routes.
- **Validation schemas** (`lib/validation/searchRoutes.ts`, `lib/validation/tripInput.ts`),
  written as predicates. `validateSearchInput` is written as a function that
  lists the issues.

## Conventions

- JavaScript numbers are Dafny `int` where the source only counts, and exact
  `real` where it divides: scores, fares, populations and schema numbers.
- Strings are `seq<char>`.
- The network is a parameter:
  - `respond(trainNumber)` is the decoded running-status response, or `None` when the request fails;
  - the live-train summary starts from the decoded response.
- `Date.now()` is a parameter `now`, in milliseconds.
- The bundled city table is a parameter `cities`.
- The JavaScript `Date` arithmetic inside `addMinutes` is minute-of-day
  arithmetic modulo 1440.
- `Array.prototype.sort` is stable (ES2019). It is modelled as a stable
  insertion sort, once as a function (`Sorting.SortDesc`) and once as an
  in-place array method proved equal to it (`Sorting.SortDescInPlace`).

## Behaviours of the code worth noting

Each point below is a place where the code does something a reader might
not expect. The model follows the code in every case.

- The bus route's first-mile leg is an auto rickshaw (20 min / 150), not a
  taxi (`lib/services/mockRouteService.ts:542-552`).
- The code does not label exactly one route Cheapest and one Fastest. It
  labels every route whose cost equals the minimum, and every route whose
  duration equals the minimum. A later label also overwrites an earlier one.
  `Ranking.CategoryRules` states these rules. `Ranking.CheapestRouteLabelled`
  shows that every route at the least cost is labelled Cheapest or Best Value,
  so there can be several.
- Live data does more than annotate legs. The live trains replace the
  template trains, with their own fares and durations
  (`lib/services/mockRouteService.ts:315-363`), so they change the ranking.
- The two rate limiters treat the instant `now == resetTime` differently:
  - the controller opens a new window (`trip.controller.ts:30`);
  - `checkRateLimit` still counts that instant in the old window (`sanitize.ts:121`).

  `TripController.WindowBoundaryDiffers` states the difference.
- The population boost is added before the `score > 0` filter, so any city
  with a positive population is a search result, whatever the query
  (`Geocoding.PopulatedCityAlwaysCandidate`).

## Model

| member | source | states |
|---|---|---|
| RouteClock.FormatDurationOfNat | lib/services/mockRouteService.ts:17-24 | for a non-negative count: "{m}m" under an hour, "{h}h" on the hour, otherwise "{h}h {m}m", with h = m div 60 and m = m mod 60 |
| RouteClock.FormatDurationExamples | lib/services/mockRouteService.ts:17-24 | 0 → "0m", 45 → "45m", 60 → "1h", 90 → "1h 30m", 1440 → "24h" |
| RouteClock.ParseFormatDuration | lib/services/mockRouteService.ts:17-24 | the rendered text reads back as the same number of minutes, so distinct durations never render alike |
| RouteClock.AddMinutes | lib/services/mockRouteService.ts:27-32 | a time whose hour and minute are not numbers gives "Inval"; otherwise the result is an "HH:MM" text |
| RouteClock.AddMinutesOfClock | lib/services/mockRouteService.ts:27-32 | on an "HH:MM" time t, adding n minutes gives the zero-padded clock text of (t + n) mod 1440 |
| RouteClock.PastMidnightExample | lib/services/mockRouteService.ts:27-32 | minute 1430 is "23:50", and 30 minutes later, modulo a day, is "00:20" |
| RouteClock.AddMinutesTwice | lib/services/mockRouteService.ts:27-32 | adding a and then b minutes is adding a + b, for every input text |
| RouteClock.DurationOfAddedMinutes | lib/services/mockRouteService.ts:27-32 | `calculateDuration` from a time to that time plus n minutes gives n mod 1440 |
| MockRoutes.BookingPlatforms | lib/services/mockRouteService.ts:35-97 | 3 platforms for train with IRCTC recommended, 2 for bus with RedBus recommended, 3 for flight with Goibibo recommended, none for any other mode |
| MockRoutes.OneRecommendedPlatform | lib/services/mockRouteService.ts:35-97 | every non-empty platform list recommends exactly one platform |
| MockRoutes.RouteKey | lib/services/mockRouteService.ts:282-291 | the forward lower-cased key when it is a template, else the reverse key when that is one, else ""; never a non-template key |
| MockRoutes.RouteKeySymmetric | lib/services/mockRouteService.ts:282-291 | both directions of a city pair find the same corridor |
| MockRoutes.StartTime | lib/services/mockRouteService.ts:300 | a given non-empty time is kept; otherwise "08:00" |
| MockRoutes.TemplateTrainRouteShape | lib/services/mockRouteService.ts:367-418 | a template-train route starts at the origin at the start time and ends at the destination. Its totals are the sums of its legs and the duration text is their rendering. It has taxi 30/350, train and taxi 40/400 legs, reliability 90, fare + 750 and duration + 70 |
| MockRoutes.TemplateTrainMainLeg | lib/services/mockRouteService.ts:381-404 | the train leg arrives its duration after it departs, the last mile leaves at its arrival, one booking platform is recommended |
| MockRoutes.FlightRouteShape | lib/services/mockRouteService.ts:480-535 | the same totals and endpoints for a flight route: metro 45/60, flight, taxi 60/900, reliability 85, fare + 960, duration + 105 |
| MockRoutes.FlightMainLeg | lib/services/mockRouteService.ts:496-520 | the flight leg keeps time, the airport taxi leaves when it lands, one platform is recommended |
| MockRoutes.BusRouteShape | lib/services/mockRouteService.ts:538-593 | the same for a bus route: auto 20/150, bus, auto 30/200, reliability 70, fare + 350, duration + 50 |
| MockRoutes.BusMainLeg | lib/services/mockRouteService.ts:554-578 | the bus leg keeps time, the last auto leaves when it arrives, one platform is recommended |
| MockRoutes.RealTrainRouteShape | lib/services/mockRouteService.ts:318-363 | a live-train route has the id "route-real-train-{number}", the label Train and reliability 90. It costs the 3A fare + 750 and takes the train's duration + 70. Its last mile leaves at the reported arrival when there is one |
| MockRoutes.RealTrainLastMile | lib/services/mockRouteService.ts:337-349 | the live-train route's last taxi leaves from the train's arrival station. It leaves at the reported arrival, or at departure plus duration when the arrival is 'N/A', and arrives 40 minutes later |
| MockRoutes.GenericRouteShape | lib/services/mockRouteService.ts:599-620 | the fallback is one route with a single train leg from origin to destination at the start time: 2500, 720 minutes, "12h", reliability 75, Recommended |
| MockRoutes.AppendRealTrainRoutes | lib/services/mockRouteService.ts:318-363 | the live-train loop appends one route per train, in order |
| MockRoutes.AppendTemplateTrainRoutes | lib/services/mockRouteService.ts:367-418 | the template-train loop appends the numbered routes and advances the route number by the number of trains |
| MockRoutes.AppendFlightRoutes | lib/services/mockRouteService.ts:480-535 | the flight loop appends the numbered routes and advances the route number by the number of flights |
| MockRoutes.AppendBusRoutes | lib/services/mockRouteService.ts:538-593 | the bus loop appends the numbered routes and advances the route number by the number of buses |
| MockRoutes.CollectRoutes | lib/services/mockRouteService.ts:307-593 | the collected list is: the live trains (or the template trains when there are none), then the flights, then the buses, numbered from 1 with live trains skipped |
| MockRoutes.RankCandidates | lib/services/mockRouteService.ts:596 | ranking the collected list through an array gives the ranked list of the specification function |
| MockRoutes.GenerateMockRoutes | lib/services/mockRouteService.ts:297-597 | the generic route for a pair without a corridor; otherwise the corridor's routes, ranked, with the live trains that `searchTrains` finds |
| MockRoutes.GeneratedRoutesWellFormed | lib/services/mockRouteService.ts:297-597 | every generated route leaves from the origin and ends at the destination, its totals are the sums of its legs, and its first and last legs keep time |
| MockRoutes.GeneratedRouteCount | lib/services/mockRouteService.ts:303-593 | one route without a corridor; otherwise (live trains, or template trains when there are none) + flights + buses |
| MockRoutes.DelhiMumbaiRouteCount | lib/services/mockRouteService.ts:101-168 | Delhi to Mumbai gives 8 routes without live trains, and live trains + 5 with them |
| MockRoutes.CandidateIdsDistinct | lib/services/mockRouteService.ts:308-591 | when the live trains have distinct numbers, no two collected routes share an id |
| MockRoutes.GeneratedIdsDistinct | lib/services/mockRouteService.ts:297-597 | ranking keeps the ids distinct |
| MockRoutes.RankedFromInput | lib/services/mockRouteService.ts:640-654 | every ranked route is an input route with only its score and category changed |
| Ranking.Weights | lib/services/mockRouteService.ts:626-630 | the weights are non-negative and sum to 1. Time dominates for fastest, cost for cheapest, and balanced weighs time and cost equally above reliability |
| Ranking.MinOf | lib/services/mockRouteService.ts:635-637 | the minimum is at most every key and is attained |
| Ranking.MaxOf | lib/services/mockRouteService.ts:636-638 | the maximum is at least every key and is attained |
| Ranking.Normalized | lib/services/mockRouteService.ts:641-642 | the normalised score lies in 0..100: 100 at the minimum (and for all when min = max), 0 at the maximum |
| Ranking.NormalizedAntitone | lib/services/mockRouteService.ts:641-642 | a smaller cost or duration never earns a smaller normalised score |
| Ranking.ScoreEach | lib/services/mockRouteService.ts:640-651 | the scoring loop replaces every array element by its scored and labelled version |
| Ranking.RankRoutes | lib/services/mockRouteService.ts:625-655 | the array afterwards holds the scored input sorted by score, as the specification function `Ranked` says |
| Ranking.RankedPermutesScored | lib/services/mockRouteService.ts:625-655 | the ranked list is a permutation of the scored list, whose routes differ from the input only in score and category |
| Ranking.RankedSorted | lib/services/mockRouteService.ts:654 | the ranked list is ordered by non-increasing score and keeps the length |
| Ranking.ScoresWithinRange | lib/services/mockRouteService.ts:641-645 | every scored route has a score, in 0..100 when reliabilities are |
| Ranking.UniformRoutesScore | lib/services/mockRouteService.ts:641-645 | when all routes share cost and duration (a single route in particular), both normalised scores are 100 |
| Ranking.CategoryRules | lib/services/mockRouteService.ts:647-650 | score > 80 gives Best Value; otherwise least cost gives Cheapest; otherwise least duration gives Fastest; otherwise the route keeps its label |
| Ranking.CheapestRouteLabelled | lib/services/mockRouteService.ts:648-650 | a route of least cost ends up Cheapest or Best Value |
| Ranking.RouteScoreDominance | lib/services/mockRouteService.ts:641-645 | a route no dearer, no slower and no less reliable scores at least as high, for every preference |
| Ranking.ScoreDominance | lib/services/mockRouteService.ts:640-645 | the same within one ranking |
| Sorting.SortDescPermutes | lib/services/mockRouteService.ts:654 | the sort only reorders |
| Sorting.SortDescSorted | lib/services/mockRouteService.ts:654 | the sort result is ordered by non-increasing key |
| Sorting.SortDescStable | lib/services/mockRouteService.ts:654 | the sort is stable: for every key value, the elements with that key keep their input order |
| Sorting.SortDescInPlace | lib/services/mockRouteService.ts:654 | the in-place insertion sort leaves the array equal to the stable sort of its old contents |
| TrainApi.Truncate5 | lib/services/trainApiService.ts:105-107 | a timing longer than five characters becomes its first five; a shorter one is kept whole |
| TrainApi.CalculateDurationOfClocks | lib/services/trainApiService.ts:186-202 | for two clock times the duration is (arr − dep) mod 1440, in 0..1439 |
| TrainApi.ParseDistanceKm | lib/services/trainApiService.ts:115-117 | "{n} km" reads as n |
| TrainApi.TrainNameStripsSuffix | lib/services/trainApiService.ts:124 | " Running Status" is removed from a name that does not already contain it |
| TrainApi.ParseTrainRoute | lib/services/trainApiService.ts:95-133 | an unsuccessful or empty response gives nothing. Otherwise there is a record exactly when the distance and the duration parse. The record keeps the number and stations, strips the name's suffix and takes its endpoints from the first and last station. The departure is cut to five characters, and so is the arrival unless it reads 'Destination', which is stored as 'N/A'. The distance is the parsed distance field and the duration is `calculateDuration` of the stored departure and the arrival. An empty delay becomes 'On Time' |
| TrainApi.DestinationArrivalParses | lib/services/trainApiService.ts:110-131 | a last station reading 'Destination' with a readable distance still gives a train, with arrival 'N/A' and duration 0 (`calculateDuration` returns 0 for 'Destination') |
| TrainApi.EstimateTrainFare | lib/services/trainApiService.ts:207-216 | the fare is the distance times the class rate, rounded to the nearest integer |
| TrainApi.FareMonotone | lib/services/trainApiService.ts:207-216 | a longer distance never costs less; distance 0 costs 0 |
| TrainApi.FormatTrainForRoute | lib/services/trainApiService.ts:221-249 | a train leg with the record's endpoints, times and minutes, the "{h}h {m}m" duration text, costing the estimated fare, with two platforms of which only IRCTC is recommended |
| RouteClock.TrainDurationTextExamples | lib/services/trainApiService.ts:229 | the train leg shows both parts even when one is zero ("1h 0m", "0h 45m"), where `formatDuration` gives "1h" and "45m" |
| TrainApi.TrainsBetweenCities | lib/services/trainApiService.ts:144-162 | at most one train. A train is returned exactly when the forward lower-case key names a popular train and fetching that train succeeds, and it is the fetched train |
| TrainApi.SearchTrains | lib/services/trainApiService.ts:168-180 | the same, under the key of the lower-cased and trimmed names |
| LiveTrain.LiveTrainStatusRaw | lib/services/liveTrainService.ts:32-46 | a response survives exactly when it is successful |
| LiveTrain.FindCurrent | lib/services/liveTrainService.ts:64 | the first flagged index, or −1 exactly when none is flagged |
| LiveTrain.LiveTrainSummaryOf | lib/services/liveTrainService.ts:53-98 | null exactly for a missing, unsuccessful or data-less response; the train name and update time are copied; at most three upcoming stations |
| LiveTrain.GetLiveTrainSummary | lib/services/liveTrainService.ts:53-58 | null exactly when the fetched response is missing, unsuccessful or without data |
| LiveTrain.SummaryAtCurrentStation | lib/services/liveTrainService.ts:70-75 | with a flagged station, the first flagged one is reported with the next at most three stations |
| LiveTrain.SummaryOfCompletedJourney | lib/services/liveTrainService.ts:81-83 | no flag and a completed journey: the last station, nothing upcoming |
| LiveTrain.SummaryOfPendingJourney | lib/services/liveTrainService.ts:84-88 | no flag otherwise: the first station and stations 1..3 |
| LiveTrain.SummaryOfNoStations | lib/services/liveTrainService.ts:66-68 | an empty list gives no station and 'Unknown' |
| LiveTrain.UpcomingIsRun | lib/services/liveTrainService.ts:75-87 | the upcoming stations are a contiguous run of the stations |
| Geocoding.LruCache.constructor | routestitch-backend/src/services/geocoding.ts:9-12 | an empty cache of the given size |
| Geocoding.LruCache.Get | routestitch-backend/src/services/geocoding.ts:14-22 | a hit returns the value and moves the key to the most recent end, keeping the others' order; a miss returns nothing and changes nothing |
| Geocoding.LruCache.Set | routestitch-backend/src/services/geocoding.ts:24-34 | an existing key moves to the end with the new value; a new key is appended, evicting exactly the oldest key when the cache is full |
| Geocoding.LruCache.Has | routestitch-backend/src/services/geocoding.ts:36-38 | membership, with nothing changed |
| Geocoding.GetAfterSet | routestitch-backend/src/services/geocoding.ts:14-34 | after `set(k, v)`, `get(k)` returns v; the cache holds at most its capacity and k is most recent |
| Geocoding.WithoutAt | routestitch-backend/src/services/geocoding.ts:19-26 | deleting a key removes exactly its position from the key order |
| Geocoding.LevenshteinDistance | routestitch-backend/src/services/geocoding.ts:256-282 | the matrix method returns the recursive edit distance |
| Geocoding.EntryIsLevenshtein | routestitch-backend/src/services/geocoding.ts:269-276 | copying the diagonal on a match gives the textbook edit distance |
| Geocoding.EditDistanceBounds | routestitch-backend/src/services/geocoding.ts:256-282 | a text is at distance 0 from itself and at its own length from the empty text; the distance is at least the difference of the lengths and at most the longer length |
| Geocoding.MatchScoreTiers | routestitch-backend/src/services/geocoding.ts:182-208 | the base score is one of 100/80/60/40/30/20/0 (50 cannot occur), 100 exactly for the city's own name, and the boost adds at most 20 |
| Geocoding.PopulationBoost | routestitch-backend/src/services/geocoding.ts:206-208 | at most 20, positive for a positive population, 0 when missing or 0 |
| Geocoding.ScoredCitiesMembers | routestitch-backend/src/services/geocoding.ts:175-213 | the candidates are exactly the cities with a positive score, carrying that score |
| Geocoding.PopulatedCityAlwaysCandidate | routestitch-backend/src/services/geocoding.ts:206-212 | a city with a positive population is always a candidate |
| Geocoding.SliceTo | routestitch-backend/src/services/geocoding.ts:218 | a prefix, of length min(limit, n) for a non-negative limit |
| Geocoding.SearchResultRanked | routestitch-backend/src/services/geocoding.ts:167-230 | the ranking is a permutation of the candidates, sorted by non-increasing score, each positive; the result is its first `limit` entries |
| Geocoding.ScoreCity | routestitch-backend/src/services/geocoding.ts:176-208 | the loop body's score equals the tiered score plus boost |
| Geocoding.SearchCities | routestitch-backend/src/services/geocoding.ts:167-230 | the result is the first `limit` entries of the ranked candidates (see `SearchResultRanked`); empty for a query under 2 characters; never more than `limit` entries |
| Geocoding.FirstWithId | routestitch-backend/src/services/geocoding.ts:236 | the first index with that id, or none exactly when no city has it |
| Geocoding.GetCityById | routestitch-backend/src/services/geocoding.ts:235-251 | the first city with the id as a location with that city's name, state, country and coordinates, type 'city' and display name "name, state"; nothing exactly when no city has the id |
| Sanitize.SanitizeString | routestitch-backend/src/utils/sanitize.ts:8-21 | the trimmed text when it has at most 200 characters, otherwise its first 200 |
| Sanitize.SanitizeLocationName | routestitch-backend/src/utils/sanitize.ts:27-32 | the sanitized text with every character outside letters, digits, white space and `- , ( ) ' .` removed; at most 200 characters, all of them allowed |
| Sanitize.LocationNameKept | routestitch-backend/src/utils/sanitize.ts:27-32 | a trimmed name of at most 200 allowed characters comes back unchanged |
| Sanitize.SanitizeNotesShape | routestitch-backend/src/utils/sanitize.ts:38-43 | only note characters, at most 200, so the 500 cut never applies |
| Sanitize.FiltersIdempotent | routestitch-backend/src/utils/sanitize.ts:31-42 | each filter applied twice is applied once; a location name passes the notes filter |
| Sanitize.KeepIdempotent | routestitch-backend/src/utils/sanitize.ts:31 | a character filter is idempotent |
| Sanitize.SanitizeNumber | routestitch-backend/src/utils/sanitize.ts:52-64 | undefined exactly for NaN, infinities and values outside [min, max]; otherwise the floor, which is at most max |
| Sanitize.SanitizeNumberInRange | routestitch-backend/src/utils/sanitize.ts:59-63 | with an integral min the result lies in [min, max] |
| Sanitize.EmailShape | routestitch-backend/src/utils/sanitize.ts:69-72 | valid exactly when there is no white space, one '@' that is not first, and a '.' after it that is neither right after the '@' nor last |
| Sanitize.EmailNeedsAt | routestitch-backend/src/utils/sanitize.ts:69-72 | no '@', no valid address |
| Sanitize.PhoneShape | routestitch-backend/src/utils/sanitize.ts:77-84 | a valid number cleans to 10, 12 or 13 characters ending in a ten-digit number starting 6–9, preceded by "91" when longer |
| Sanitize.PhoneIgnoresSeparators | routestitch-backend/src/utils/sanitize.ts:79 | inserting a space or hyphen anywhere does not change validity |
| Sanitize.RateLimitStepBounds | routestitch-backend/src/utils/sanitize.ts:113-152 | counts stay in 1..max; an allowed call reports max − count left; a refused one changes nothing and reports 0 |
| Sanitize.OpenWindowAdmitsAtMost | routestitch-backend/src/utils/sanitize.ts:137-151 | inside an open window at most the remaining allowance is granted |
| Sanitize.NewWindowAdmitsAtMost | routestitch-backend/src/utils/sanitize.ts:121-151 | a window admits at most max calls |
| Sanitize.ExpiredLikeMissing | routestitch-backend/src/utils/sanitize.ts:121 | an expired entry behaves like a missing one, so cleanup never changes an answer |
| Sanitize.RateLimitStore.CheckRateLimit | routestitch-backend/src/utils/sanitize.ts:113-152 | only the caller's entry changes, as one step says; a refused call changes nothing; counts stay within the limit |
| Sanitize.RateLimitStore.CleanupRateLimits | routestitch-backend/src/utils/sanitize.ts:157-165 | exactly the entries with now > resetTime are removed, the rest unchanged |
| TripController.ClientIp | routestitch-backend/src/controllers/trip.controller.ts:26 | the ip when it is non-empty, else the remote address when that is non-empty, else "unknown" |
| TripController.AdmitStepCases | routestitch-backend/src/controllers/trip.controller.ts:28-41 | a missing or closed window restarts at 1 for a minute; an open one refuses exactly at 100 and otherwise adds one; counts stay in 1..100 |
| TripController.OpenWindowAdmitsAtMost | routestitch-backend/src/controllers/trip.controller.ts:30-38 | an open window admits at most what is left of its 100 requests |
| TripController.NewWindowAdmitsAtMost | routestitch-backend/src/controllers/trip.controller.ts:28-41 | a minute opened by a first request admits at most 100 requests |
| TripController.WindowBoundaryDiffers | routestitch-backend/src/controllers/trip.controller.ts:30 | at now = resetTime the controller opens a new window while `checkRateLimit` keeps the old one |
| TripController.IpRateLimiter.Admit | routestitch-backend/src/controllers/trip.controller.ts:28-41 | admitted exactly when the step allows it; only that address's record changes; a refusal changes nothing; counts stay within 100 |
| TripController.ParsedRequestValid | routestitch-backend/src/controllers/trip.controller.ts:5-16 | parsing succeeds exactly for a valid body; passengers are a whole 1–9 (default 1) and the preference is known (default 'balanced') |
| TripController.MockRoutesConsistent | routestitch-backend/src/controllers/trip.controller.ts:55-122 | both fixed routes cost the sum of their three legs and chain from origin to destination |
| TripController.SearchRoutes | routestitch-backend/src/controllers/trip.controller.ts:23-125 | 429 exactly when the limiter refuses, and then the limiter is unchanged. Otherwise the limiter stores the address's admitted record, and the answer is 400 exactly for an invalid body, else 200 with the fixed routes |
| SearchValidation.TimeFormatMeaning | lib/validation/searchRoutes.ts:25-28 | the pattern accepts exactly "H:MM"/"HH:MM" with hour 0–23 and minute 00–59 |
| SearchValidation.TimeFormatExamples | lib/validation/searchRoutes.ts:25-28 | "9:05", "09:05", "23:59" pass; "24:00", "9:5", "12:60" fail |
| SearchValidation.ValidTimeParses | lib/validation/searchRoutes.ts:25-28 | an accepted time splits into the same hour and minute the route engine reads |
| SearchValidation.StopIssuesEmpty | lib/validation/searchRoutes.ts:8-11 | a stop reports no issue exactly when it is valid |
| SearchValidation.StopsIssuesEmpty | lib/validation/searchRoutes.ts:33 | a stop list reports no issue exactly when every stop is valid |
| SearchValidation.IssuesEmptyIffValid | lib/validation/searchRoutes.ts:13-40 | no issue is reported exactly when the input satisfies the schema and its refinement |
| SearchValidation.SameOriginReported | lib/validation/searchRoutes.ts:30-40 | the origin/destination issue is reported exactly when the names agree ignoring case and the preference is known; an unknown preference aborts before the refinement |
| SearchValidation.ValidateSearchInput | lib/validation/searchRoutes.ts:48-60 | success exactly for a valid input; data exactly on success and equal to the input; a non-empty error exactly on failure |
| TripValidation.Country | lib/validation/tripInput.ts:9 | a missing country defaults to 'India' |
| TripValidation.TotalStopMinutesBounds | lib/validation/tripInput.ts:20 | stops of 15–4320 minutes total between 15 and 4320 per stop |
| TripValidation.ValidTripStopTime | lib/validation/tripInput.ts:20-51 | a valid trip spends at least 15 minutes per stop and at most 30 days at its stops |
| TripValidation.SameCityTripAccepted | lib/validation/tripInput.ts:28-59 | for every input: valid trips satisfy the field rules. Given the field rules, two places in one city with different names are accepted, and so are places in different cities. Two places with the same city and name are always refused, whatever their ids |
| TripValidation.FormTimeReadable | lib/validation/tripInput.ts:72 | a form time is empty or a readable time of day |

## Left out

- Network requests (`fetch` in `fetchTrainRoute` and `fetchLiveTrainStatusRaw`),
  `reverseGeocode` with its throttling, and `getCurrentLocation`. These are
  I/O, so the decoded responses are parameters.
- `calculateDistance`/`toRad`: trigonometric floating point.
- `DOMPurify.sanitize` is a foreign library. The sanitisers start from the text
  it returns. `sanitizeObject` is left out for the same reason.
- The `setInterval` at `sanitize.ts:169`. It is a timer; `CleanupRateLimits`
  models one run of the cleanup.
- The date refinements of the schemas ("today or later", "within 365 days")
  and the form's `Date` value. They read the clock.
- Zod's issue messages and its type checks. The model receives typed records
  and lists the rule behind each issue rather than the message text. As in
  zod 3, an object refinement is skipped once a field fails with an aborting
  issue. For typed records the only aborting issue is an unknown enum value.
- The controller's `try`/`catch` and its 500 response. No modelled step
  throws.
- The `async` plumbing of `generateMockRoutes`, including its `catch` branch
  (`mockRouteService.ts:421-477`). `searchTrains` cannot throw there, because
  `fetchTrainRoute` catches its own failures. A failed lookup yields no live
  trains, and then the template trains are used, which is also what the catch
  branch does.
- The 500 ms delay and the `searchRoutes` wrapper of the mock route service,
  `lib/services/searchRoutesService.ts`, and the server glue.
- RouteClock.AddMinutes: time zones and daylight saving of the JavaScript
  `Date` are not modelled. An invalid time gives the text "Inval" (the head of
  "Invalid Date"). The model reads an hour or minute only as a plain digit
  string. A signed, decimal or exponent text such as "-1:30" or "8.5:00" gives
  "Inval" here, while `Number` and `Date.setHours` in the source yield a time.
  No caller passes such a text: the search time must match the pattern of
  `lib/validation/searchRoutes.ts:25-28`, template times are constants, and
  live times come from parsed timings.
- Ranking.RankRoutes: JavaScript doubles are exact reals here, so rounding
  in the score is not modelled. `preference` is one of the three enum values,
  so the undefined-weights case does not arise.
- Ranking.RankRoutes: the empty input, where `Math.min()` is `Infinity`,
  returns the empty list in both the source and the model. No score is
  computed in that case.
- TrainApi.ParseTrainRoute: where the source would carry `NaN` (a timing or
  distance that is not numeric), the model returns None.
- TrainApi.ParseTrainRoute: `parseInt`'s hexadecimal prefix and `Number()` on
  non-digit text are not modelled. `Number("")` is 0.
- Sanitize.SanitizeNumber: `Number(input)` is an input, so string-to-number
  conversion is not modelled. JavaScript numbers beyond exact reals (−0,
  rounding) are not modelled either.
- Geocoding.SearchCities: a `NaN` or negative population is not modelled
  beyond the integer given.
- Text.Lower: the model lower-cases ASCII letters only, whereas JavaScript's
  `toLowerCase` also maps non-ASCII letters. Lengths are counted in code
  points, not UTF-16 units.
- Geocoding.LevenshteinDistance: the matrix is a Dafny `array2` rather than an array of rows.
- RouteClock.FormatDuration: its properties are proved for non-negative
  minute counts. The definition also follows the source for negative counts.

/** The value types shared by the route services (types/route.ts): transport
    modes, legs, routes, booking platforms and the search input. */
module RouteTypes {
  import opened Wrappers

  datatype Mode = Train | Bus | Flight | Metro | Taxi | Auto | Walk

  datatype Preference = Fastest | Cheapest | Balanced

  /** Route categories.  `TrainLabel` is the 'Train' label the live-train
      path attaches, which is outside the declared category union. */
  datatype Category = FastestLabel | CheapestLabel | BestValue | Recommended | TrainLabel

  /** A booking reference; an absent `recommended` flag is false. */
  datatype Platform = Platform(name: string, url: string, recommended: bool, note: string)

  /** One movement segment.  An absent booking-platform list is empty. */
  datatype Leg = Leg(
    mode: Mode,
    from: string,
    to: string,
    departure: string,
    arrival: string,
    duration: string,
    durationMinutes: int,
    cost: int,
    operator: string,
    trainNumber: Option<string>,
    flightNumber: Option<string>,
    busType: Option<string>,
    platforms: seq<Platform>)

  /** A complete itinerary; `score` is absent until ranking. */
  datatype Route = Route(
    id: string,
    totalCost: int,
    totalDuration: string,
    totalDurationMinutes: int,
    reliability: int,
    category: Option<Category>,
    legs: seq<Leg>,
    score: Option<real>)

  datatype Stop = Stop(location: string, duration: real)

  /** The validated search request; numbers are JSON numbers. */
  datatype SearchInput = SearchInput(
    origin: string,
    destination: string,
    date: string,
    time: Option<string>,
    passengers: real,
    preference: Preference,
    stops: Option<seq<Stop>>)

  /** The number of booking platforms flagged as recommended. */
  function RecommendedCount(ps: seq<Platform>): nat {
    if ps == [] then 0
    else (if ps[0].recommended then 1 else 0) + RecommendedCount(ps[1..])
  }

  function SumCost(legs: seq<Leg>): int {
    if legs == [] then 0 else legs[0].cost + SumCost(legs[1..])
  }

  function SumMinutes(legs: seq<Leg>): int {
    if legs == [] then 0 else legs[0].durationMinutes + SumMinutes(legs[1..])
  }
}

/** Route generation (lib/services/mockRouteService.ts): booking platforms,
    the corridor templates, the route key, the four route builders, the
    generic fallback and `generateMockRoutes`, which numbers the routes,
    collects them and ranks them.  The live-train lookup is a parameter:
    `respond` answers the running-status request (see TrainApi). */
module MockRoutes {
  import opened Wrappers
  import opened Text
  import opened RouteTypes
  import opened RouteClock
  import TrainApi
  import Ranking

  /** `getBookingPlatforms` for the three bookable modes; other modes get
      no platforms. */
  function BookingPlatforms(mode: Mode, from: string, to: string): (ps: seq<Platform>)
    ensures mode == Train ==> |ps| == 3 && ps[0].name == "IRCTC" && ps[0].recommended
    ensures mode == Bus ==> |ps| == 2 && ps[0].name == "RedBus" && ps[0].recommended
    ensures mode == Flight ==> |ps| == 3 && ps[1].name == "Goibibo" && ps[1].recommended
    ensures mode != Train && mode != Bus && mode != Flight ==> ps == []
  {
    match mode
    case Train =>
      [Platform("IRCTC", "https://www.irctc.co.in/nget/train-search", true, "Official railway booking"),
       Platform("ConfirmTkt", "https://www.confirmtkt.com/trains/" + from + "-to-" + to, false,
                "Tatkal booking assistance"),
       Platform("RailYatri", "https://www.railyatri.in/", false, "Real-time train tracking")]
    case Bus =>
      [Platform("RedBus", "https://www.redbus.in/bus-tickets/" + from + "-to-" + to, true,
                "Largest bus network"),
       Platform("AbhiBus", "https://www.abhibus.com/" + from + "-to-" + to + "-bus", false,
                "Often has better prices")]
    case Flight =>
      [Platform("MakeMyTrip", "https://www.makemytrip.com/flight/search", false, "Cashback offers available"),
       Platform("Goibibo", "https://www.goibibo.com/flights/", true, "Best price comparison"),
       Platform("Skyscanner", "https://www.skyscanner.co.in/", false, "International price comparison")]
    case _ => []
  }

  /** Every non-empty platform list recommends exactly one platform. */
  lemma OneRecommendedPlatform(mode: Mode, from: string, to: string)
    ensures var ps := BookingPlatforms(mode, from, to);
      ps != [] ==> RecommendedCount(ps) == 1
  {
    var ps := BookingPlatforms(mode, from, to);
    if ps != [] {
      assert RecommendedCount(ps[1..][1..]) == 0 by {
        if mode == Bus { assert ps[1..][1..] == []; }
        else { assert ps[1..][1..][1..] == []; }
      }
    }
  }

  datatype TrainTemplate = TrainTemplate(
    name: string, number: string, duration: int, cost: int, departure: string, seatClass: string)
  datatype BusTemplate = BusTemplate(
    operator: string, duration: int, cost: int, busType: string, departure: string)
  datatype FlightTemplate = FlightTemplate(
    airline: string, number: string, duration: int, cost: int, departure: string)

  /** A corridor; a list the source leaves out is empty here. */
  datatype Corridor = Corridor(
    distance: int, trainRoutes: seq<TrainTemplate>, busRoutes: seq<BusTemplate>,
    flightRoutes: seq<FlightTemplate>)

  /** `routeTemplates`, keyed by "origin-destination" in lower case. */
  const Templates: map<string, Corridor> := map[
    "delhi-mumbai" := Corridor(1400,
      [TrainTemplate("Rajdhani Express", "12951", 940, 2800, "16:55", "3A"),
       TrainTemplate("August Kranti Rajdhani", "12953", 925, 3200, "16:35", "2A"),
       TrainTemplate("Mumbai Rajdhani", "12955", 960, 2650, "16:00", "3A")],
      [BusTemplate("VRL Travels", 1260, 1600, "AC Sleeper", "18:00"),
       BusTemplate("Sharma Travels", 1320, 1400, "Non-AC Sleeper", "19:30")],
      [FlightTemplate("IndiGo", "6E2343", 135, 4500, "08:00"),
       FlightTemplate("Air India", "AI660", 140, 5200, "10:30"),
       FlightTemplate("Vistara", "UK995", 135, 6500, "14:00")]),
    "bangalore-hyderabad" := Corridor(570,
      [TrainTemplate("Kacheguda Express", "12785", 660, 850, "21:15", "Sleeper")],
      [BusTemplate("KSRTC Airavat", 600, 900, "AC Sleeper", "22:00"),
       BusTemplate("Orange Travels", 630, 750, "AC Semi-Sleeper", "23:30")],
      [FlightTemplate("IndiGo", "6E6251", 60, 3200, "07:30")]),
    "delhi-bangalore" := Corridor(2150,
      [TrainTemplate("Karnataka Express", "12627", 2040, 2200, "19:30", "3A")],
      [],
      [FlightTemplate("IndiGo", "6E6115", 165, 5500, "06:00"),
       FlightTemplate("Air India", "AI804", 170, 6200, "09:15")]),
    "chennai-bangalore" := Corridor(350,
      [TrainTemplate("Shatabdi Express", "12007", 300, 680, "06:00", "CC")],
      [BusTemplate("KSRTC Airavat", 420, 550, "AC Sleeper", "23:00")],
      []),
    "pune-mumbai" := Corridor(150,
      [TrainTemplate("Deccan Queen", "12123", 210, 250, "07:15", "2S")],
      [BusTemplate("MSRTC Shivneri", 180, 350, "AC", "06:30")],
      [])
  ]

  /** No two template keys have the same length, so no key is the reverse
      of another one. */
  lemma TemplateKeysByLength(k1: string, k2: string)
    requires k1 in Templates && k2 in Templates && |k1| == |k2|
    ensures k1 == k2
  {
  }

  /** `getRouteKey`: the forward key when it has a template, otherwise the
      reverse key when it has one, otherwise "". */
  function RouteKey(origin: string, destination: string): (key: string)
    ensures key == "" || key in Templates
    ensures var forward := Lower(origin) + "-" + Lower(destination);
      var backward := Lower(destination) + "-" + Lower(origin);
      (key == "" <==> forward !in Templates && backward !in Templates) &&
      (forward in Templates ==> key == forward) &&
      (key != "" ==> key == forward || key == backward)
  {
    var forward := Lower(origin) + "-" + Lower(destination);
    var backward := Lower(destination) + "-" + Lower(origin);
    if forward in Templates then forward
    else if backward in Templates then backward
    else ""
  }

  /** The search does not depend on its direction: both directions of a
      city pair find the same template. */
  lemma RouteKeySymmetric(origin: string, destination: string)
    ensures RouteKey(origin, destination) == RouteKey(destination, origin)
  {
    var forward := Lower(origin) + "-" + Lower(destination);
    var backward := Lower(destination) + "-" + Lower(origin);
    if forward in Templates && backward in Templates {
      TemplateKeysByLength(forward, backward);
    }
  }

  /** `input.time || '08:00'`: a missing or empty time means eight o'clock. */
  function StartTime(time: Option<string>): (start: string)
    ensures start != ""
    ensures time.Some? && time.value != "" ==> start == time.value
  {
    if time.Some? && time.value != "" then time.value else "08:00"
  }

  /** A leg that leaves at `departure` and arrives `minutes` later,
      without train, flight or bus details and without platforms. */
  function TimedLeg(mode: Mode, from: string, to: string, departure: string, minutes: int,
                    duration: string, cost: int, operator: string): (leg: Leg)
    ensures Timed(leg) && leg.departure == departure
  {
    Leg(mode, from, to, departure, AddMinutes(departure, minutes), duration, minutes, cost, operator,
        None, None, None, [])
  }

  /** A last-mile leg: it leaves `wait` minutes after `time` and arrives
      at `addMinutes(time, wait + minutes)`, which is `minutes` after it
      leaves. */
  function LastMile(mode: Mode, from: string, to: string, time: string, wait: int, minutes: int,
                    duration: string, cost: int, operator: string): (leg: Leg)
    ensures Timed(leg) && leg.departure == AddMinutes(time, wait)
  {
    AddMinutesTwice(time, wait, minutes);
    Leg(mode, from, to, AddMinutes(time, wait), AddMinutes(time, wait + minutes), duration, minutes, cost,
        operator, None, None, None, [])
  }

  /** A route with its totals computed from its legs, as every builder
      does with `legs.reduce`. */
  function Assemble(id: string, legs: seq<Leg>, reliability: int, category: Option<Category>): Route
  {
    var minutes := SumMinutes(legs);
    Route(id, SumCost(legs), FormatDuration(minutes), minutes, reliability, category, legs, None)
  }

  /** The route built from a live train: a taxi to the boarding station,
      the train leg, and a taxi from the alighting station that leaves at
      the train's arrival, or at departure plus duration when the arrival
      is unknown. */
  function RealTrainRoute(input: SearchInput, start: string, train: TrainApi.TrainInfo): Route
  {
    Assemble("route-real-train-" + train.trainNumber,
      [TimedLeg(Taxi, input.origin, train.from, start, 30, "30m", 350, "Uber/Ola"),
       TrainApi.FormatTrainForRoute(train, TrainApi.ThreeA),
       if train.arrival != "N/A" then TimedLeg(Taxi, train.to, input.destination, train.arrival, 40, "40m", 400, "Uber/Ola")
       else LastMile(Taxi, train.to, input.destination, train.departure, train.duration, 40, "40m", 400, "Uber/Ola")],
      90, Some(TrainLabel))
  }

  /** A route from a template train, between the two railway stations. */
  function TemplateTrainRoute(input: SearchInput, start: string, train: TrainTemplate, id: string): Route
  {
    var o, d := input.origin, input.destination;
    Assemble(id,
      [TimedLeg(Taxi, o, o + " Railway Station", start, 30, "30m", 350, "Uber/Ola"),
       TimedLeg(Train, o, d, train.departure, train.duration, FormatDuration(train.duration), train.cost, train.name)
         .(trainNumber := Some(train.number), platforms := BookingPlatforms(Train, o, d)),
       LastMile(Taxi, d + " Railway Station", d, train.departure, train.duration, 40, "40m", 400, "Uber/Ola")],
      90, None)
  }

  /** A route from a template flight: metro to the airport, the flight,
      an airport taxi. */
  function FlightRoute(input: SearchInput, start: string, flight: FlightTemplate, id: string): Route
  {
    var o, d := input.origin, input.destination;
    Assemble(id,
      [TimedLeg(Metro, o, o + " Airport", start, 45, "45m", 60, o + " Metro"),
       TimedLeg(Flight, o, d, flight.departure, flight.duration, FormatDuration(flight.duration), flight.cost,
                flight.airline)
         .(flightNumber := Some(flight.number), platforms := BookingPlatforms(Flight, o, d)),
       LastMile(Taxi, d + " Airport", d, flight.departure, flight.duration, 60, "1h", 900, "Airport Taxi")],
      85, None)
  }

  /** A route from a template bus: auto rickshaws to and from the bus
      stands. */
  function BusRoute(input: SearchInput, start: string, bus: BusTemplate, id: string): Route
  {
    var o, d := input.origin, input.destination;
    Assemble(id,
      [TimedLeg(Auto, o, o + " Bus Stand", start, 20, "20m", 150, "Auto Rickshaw"),
       TimedLeg(Bus, o, d, bus.departure, bus.duration, FormatDuration(bus.duration), bus.cost, bus.operator)
         .(busType := Some(bus.busType), platforms := BookingPlatforms(Bus, o, d)),
       LastMile(Auto, d + " Bus Stand", d, bus.departure, bus.duration, 30, "30m", 200, "Auto Rickshaw")],
      70, None)
  }

  /** `generateGenericRoute`: one twelve-hour train for a pair without a
      template. */
  function GenericRoutes(input: SearchInput, start: string): seq<Route>
  {
    [Route("route-generic", 2500, "12h", 720, 75, Some(Recommended),
       [TimedLeg(Train, input.origin, input.destination, start, 720, "12h", 2500, "Indian Railways")],
       None)]
  }

  /** The id `route-{n}` of a numbered route. */
  function RouteId(n: nat): string {
    "route-" + NatToString(n)
  }

  /** The live-train routes, in the order of the trains. */
  function RealTrainRoutes(input: SearchInput, start: string, trains: seq<TrainApi.TrainInfo>): seq<Route> {
    seq(|trains|, i requires 0 <= i < |trains| => RealTrainRoute(input, start, trains[i]))
  }

  /** The template-train routes, numbered from `first`. */
  function TemplateTrainRoutes(input: SearchInput, start: string, trains: seq<TrainTemplate>, first: nat): seq<Route> {
    seq(|trains|, i requires 0 <= i < |trains| => TemplateTrainRoute(input, start, trains[i], RouteId(first + i)))
  }

  /** The flight routes, numbered from `first`. */
  function FlightRoutes(input: SearchInput, start: string, flights: seq<FlightTemplate>, first: nat): seq<Route> {
    seq(|flights|, i requires 0 <= i < |flights| => FlightRoute(input, start, flights[i], RouteId(first + i)))
  }

  /** The bus routes, numbered from `first`. */
  function BusRoutes(input: SearchInput, start: string, buses: seq<BusTemplate>, first: nat): seq<Route> {
    seq(|buses|, i requires 0 <= i < |buses| => BusRoute(input, start, buses[i], RouteId(first + i)))
  }

  /** The routes of a corridor before ranking: the live trains, or the
      template trains when there are none, then the flights, then the
      buses.  The numbering starts at 1 and skips live trains. */
  function Candidates(input: SearchInput, corridor: Corridor, realTrains: seq<TrainApi.TrainInfo>): seq<Route> {
    var start := StartTime(input.time);
    if |realTrains| > 0 then
      RealTrainRoutes(input, start, realTrains)
      + FlightRoutes(input, start, corridor.flightRoutes, 1)
      + BusRoutes(input, start, corridor.busRoutes, 1 + |corridor.flightRoutes|)
    else
      TemplateTrainRoutes(input, start, corridor.trainRoutes, 1)
      + FlightRoutes(input, start, corridor.flightRoutes, 1 + |corridor.trainRoutes|)
      + BusRoutes(input, start, corridor.busRoutes, 1 + |corridor.trainRoutes| + |corridor.flightRoutes|)
  }

  /** What `generateMockRoutes` returns, given the live trains found for
      the pair. */
  function GeneratedRoutes(input: SearchInput, realTrains: seq<TrainApi.TrainInfo>): seq<Route> {
    var key := RouteKey(input.origin, input.destination);
    if key == "" then GenericRoutes(input, StartTime(input.time))
    else Ranking.Ranked(Candidates(input, Templates[key], realTrains), input.preference)
  }

  /** Extending a prefix of `s` by its next element. */
  lemma AppendNext(prefix: seq<Route>, s: seq<Route>, i: nat)
    requires i < |s|
    ensures prefix + s[..i + 1] == prefix + s[..i] + [s[i]]
  {
    assert s[..i + 1] == s[..i] + [s[i]];
  }

  /** The live-train loop: one route per train, appended in order. */
  method AppendRealTrainRoutes(input: SearchInput, start: string, trains: seq<TrainApi.TrainInfo>,
                               routes: seq<Route>)
    returns (out: seq<Route>)
    ensures out == routes + RealTrainRoutes(input, start, trains)
  {
    ghost var all := RealTrainRoutes(input, start, trains);
    out := routes;
    var i := 0;
    while i < |trains|
      invariant 0 <= i <= |trains|
      invariant out == routes + all[..i]
    {
      var route := RealTrainRoute(input, start, trains[i]);
      assert route == all[i];
      AppendNext(routes, all, i);
      out := out + [route];
      i := i + 1;
    }
    assert all[..i] == all;
  }

  /** The template-train loop: each route takes the next route number. */
  method AppendTemplateTrainRoutes(input: SearchInput, start: string, trains: seq<TrainTemplate>,
                            routes: seq<Route>, routeId: nat)
    returns (out: seq<Route>, nextId: nat)
    ensures out == routes + TemplateTrainRoutes(input, start, trains, routeId)
    ensures nextId == routeId + |trains|
  {
    ghost var all := TemplateTrainRoutes(input, start, trains, routeId);
    out, nextId := routes, routeId;
    var i := 0;
    while i < |trains|
      invariant 0 <= i <= |trains|
      invariant nextId == routeId + i
      invariant out == routes + all[..i]
    {
      var route := TemplateTrainRoute(input, start, trains[i], RouteId(nextId));
      assert route == all[i];
      AppendNext(routes, all, i);
      out := out + [route];
      nextId := nextId + 1;
      i := i + 1;
    }
    assert all[..i] == all;
  }

  /** The flight loop: each route takes the next route number. */
  method AppendFlightRoutes(input: SearchInput, start: string, flights: seq<FlightTemplate>,
                            routes: seq<Route>, routeId: nat)
    returns (out: seq<Route>, nextId: nat)
    ensures out == routes + FlightRoutes(input, start, flights, routeId)
    ensures nextId == routeId + |flights|
  {
    ghost var all := FlightRoutes(input, start, flights, routeId);
    out, nextId := routes, routeId;
    var i := 0;
    while i < |flights|
      invariant 0 <= i <= |flights|
      invariant nextId == routeId + i
      invariant out == routes + all[..i]
    {
      var route := FlightRoute(input, start, flights[i], RouteId(nextId));
      assert route == all[i];
      AppendNext(routes, all, i);
      out := out + [route];
      nextId := nextId + 1;
      i := i + 1;
    }
    assert all[..i] == all;
  }

  /** The bus loop: each route takes the next route number. */
  method AppendBusRoutes(input: SearchInput, start: string, buses: seq<BusTemplate>,
                            routes: seq<Route>, routeId: nat)
    returns (out: seq<Route>, nextId: nat)
    ensures out == routes + BusRoutes(input, start, buses, routeId)
    ensures nextId == routeId + |buses|
  {
    ghost var all := BusRoutes(input, start, buses, routeId);
    out, nextId := routes, routeId;
    var i := 0;
    while i < |buses|
      invariant 0 <= i <= |buses|
      invariant nextId == routeId + i
      invariant out == routes + all[..i]
    {
      var route := BusRoute(input, start, buses[i], RouteId(nextId));
      assert route == all[i];
      AppendNext(routes, all, i);
      out := out + [route];
      nextId := nextId + 1;
      i := i + 1;
    }
    assert all[..i] == all;
  }

  /** The body of `generateMockRoutes` after the template lookup: the
      route lists of the corridor with a running route number. */
  method CollectRoutes(input: SearchInput, template: Corridor, realTrains: seq<TrainApi.TrainInfo>)
    returns (routes: seq<Route>)
    ensures routes == Candidates(input, template, realTrains)
  {
    var startTime := StartTime(input.time);
    var routeId: nat := 1;
    routes := [];
    if |realTrains| > 0 {
      routes := AppendRealTrainRoutes(input, startTime, realTrains, routes);
    } else {
      routes, routeId := AppendTemplateTrainRoutes(input, startTime, template.trainRoutes, routes, routeId);
    }
    ghost var head, flightsFrom := routes, routeId;
    routes, routeId := AppendFlightRoutes(input, startTime, template.flightRoutes, routes, routeId);
    ghost var busesFrom := routeId;
    routes, routeId := AppendBusRoutes(input, startTime, template.busRoutes, routes, routeId);
    if |realTrains| > 0 {
      assert head == RealTrainRoutes(input, startTime, realTrains);
      assert routes == RealTrainRoutes(input, startTime, realTrains)
                       + FlightRoutes(input, startTime, template.flightRoutes, 1)
                       + BusRoutes(input, startTime, template.busRoutes, 1 + |template.flightRoutes|);
    } else {
      assert head == TemplateTrainRoutes(input, startTime, template.trainRoutes, 1);
      assert routes == TemplateTrainRoutes(input, startTime, template.trainRoutes, 1)
                       + FlightRoutes(input, startTime, template.flightRoutes, 1 + |template.trainRoutes|)
                       + BusRoutes(input, startTime, template.busRoutes,
                                   1 + |template.trainRoutes| + |template.flightRoutes|);
    }
  }

  /** `generateMockRoutes`: the generic route for a pair without a
      template; otherwise the corridor's routes, ranked in place. */
  method GenerateMockRoutes(input: SearchInput, respond: string -> Option<TrainApi.TrainRouteResponse>)
    returns (routes: seq<Route>)
    ensures routes == GeneratedRoutes(input, TrainApi.SearchTrains(input.origin, input.destination, respond))
  {
    var routeKey := RouteKey(input.origin, input.destination);
    if routeKey == "" {
      return GenericRoutes(input, StartTime(input.time));
    }
    var realTrains := TrainApi.SearchTrains(input.origin, input.destination, respond);
    var candidates := CollectRoutes(input, Templates[routeKey], realTrains);
    routes := RankCandidates(candidates, input.preference);
  }

  /** The candidate list ranked through an array, as `rankRoutes` works. */
  method RankCandidates(candidates: seq<Route>, preference: Preference) returns (routes: seq<Route>)
    ensures routes == Ranking.Ranked(candidates, preference)
  {
    var a := new Route[|candidates|](j requires 0 <= j < |candidates| => candidates[j]);
    assert a[..] == candidates;
    Ranking.RankRoutes(a, preference);
    routes := a[..];
  }

  /** A route's totals are those of its legs, and its duration text is
      the formatted total. */
  predicate Totalled(r: Route) {
    r.totalCost == SumCost(r.legs) && r.totalDurationMinutes == SumMinutes(r.legs) &&
    r.totalDuration == FormatDuration(r.totalDurationMinutes)
  }

  /** A leg arrives its own duration after it departs, on the clock. */
  predicate Timed(l: Leg) {
    l.arrival == AddMinutes(l.departure, l.durationMinutes)
  }

  /** A route leaves from the origin, ends at the destination, has
      consistent totals, and its first and last legs keep time. */
  predicate WellFormed(r: Route, origin: string, destination: string) {
    Totalled(r) && |r.legs| > 0 && r.legs[0].from == origin && r.legs[|r.legs| - 1].to == destination &&
    Timed(r.legs[0]) && Timed(r.legs[|r.legs| - 1])
  }

  /** A three-leg route's totals are the sums of its three legs. */
  lemma AssembledThree(id: string, l0: Leg, l1: Leg, l2: Leg, reliability: int, category: Option<Category>)
    ensures var r := Assemble(id, [l0, l1, l2], reliability, category);
      Totalled(r) && r.legs == [l0, l1, l2] && r.id == id &&
      r.totalCost == l0.cost + l1.cost + l2.cost &&
      r.totalDurationMinutes == l0.durationMinutes + l1.durationMinutes + l2.durationMinutes
  {
    var legs := [l0, l1, l2];
    assert legs[1..] == [l1, l2];
    assert legs[1..][1..] == [l2];
    assert legs[1..][1..][1..] == [];
    assert SumCost(legs[1..][1..]) == l2.cost && SumMinutes(legs[1..][1..]) == l2.durationMinutes;
  }

  /** A template-train route is well formed, costs the fare plus 750 for
      the taxis and takes 70 minutes more than the train. */
  lemma TemplateTrainRouteShape(input: SearchInput, start: string, train: TrainTemplate, id: string)
    ensures var r := TemplateTrainRoute(input, start, train, id);
      WellFormed(r, input.origin, input.destination) && r.id == id && r.legs[0].departure == start &&
      r.totalCost == train.cost + 750 && r.totalDurationMinutes == train.duration + 70 &&
      r.reliability == 90 && r.legs[1].mode == Train &&
      r.legs[0].mode == Taxi && r.legs[0].durationMinutes == 30 && r.legs[0].cost == 350 &&
      r.legs[2].mode == Taxi && r.legs[2].durationMinutes == 40 && r.legs[2].cost == 400
  {
    var o, d := input.origin, input.destination;
    var l0 := TimedLeg(Taxi, o, o + " Railway Station", start, 30, "30m", 350, "Uber/Ola");
    var l1 := TimedLeg(Train, o, d, train.departure, train.duration, FormatDuration(train.duration), train.cost, train.name)
           .(trainNumber := Some(train.number), platforms := BookingPlatforms(Train, o, d));
    var l2 := LastMile(Taxi, d + " Railway Station", d, train.departure, train.duration, 40, "40m", 400, "Uber/Ola");
    assert TemplateTrainRoute(input, start, train, id) == Assemble(id, [l0, l1, l2], 90, None);
    AssembledThree(id, l0, l1, l2, 90, None);
  }

  /** The train leg keeps time, the last mile leaves when it arrives, and
      its booking platforms recommend exactly one. */
  lemma TemplateTrainMainLeg(input: SearchInput, start: string, train: TrainTemplate, id: string)
    ensures var r := TemplateTrainRoute(input, start, train, id);
      |r.legs| == 3 && Timed(r.legs[1]) && r.legs[2].departure == r.legs[1].arrival &&
      RecommendedCount(r.legs[1].platforms) == 1
  {
    OneRecommendedPlatform(Train, input.origin, input.destination);
  }

  /** A flight route is well formed, costs the fare plus 960 for the
      metro and the taxi and takes 105 minutes more than the flight. */
  lemma FlightRouteShape(input: SearchInput, start: string, flight: FlightTemplate, id: string)
    ensures var r := FlightRoute(input, start, flight, id);
      WellFormed(r, input.origin, input.destination) && r.id == id && r.legs[0].departure == start &&
      r.totalCost == flight.cost + 960 && r.totalDurationMinutes == flight.duration + 105 &&
      r.reliability == 85 && r.legs[1].mode == Flight &&
      r.legs[0].mode == Metro && r.legs[0].durationMinutes == 45 && r.legs[0].cost == 60 &&
      r.legs[2].mode == Taxi && r.legs[2].durationMinutes == 60 && r.legs[2].cost == 900
  {
    var o, d := input.origin, input.destination;
    var l0 := TimedLeg(Metro, o, o + " Airport", start, 45, "45m", 60, o + " Metro");
    var l1 := TimedLeg(Flight, o, d, flight.departure, flight.duration, FormatDuration(flight.duration), flight.cost,
                  flight.airline)
           .(flightNumber := Some(flight.number), platforms := BookingPlatforms(Flight, o, d));
    var l2 := LastMile(Taxi, d + " Airport", d, flight.departure, flight.duration, 60, "1h", 900, "Airport Taxi");
    assert FlightRoute(input, start, flight, id) == Assemble(id, [l0, l1, l2], 85, None);
    AssembledThree(id, l0, l1, l2, 85, None);
  }

  /** The flight leg keeps time, the airport taxi leaves when it lands, and
      its booking platforms recommend exactly one. */
  lemma FlightMainLeg(input: SearchInput, start: string, flight: FlightTemplate, id: string)
    ensures var r := FlightRoute(input, start, flight, id);
      |r.legs| == 3 && Timed(r.legs[1]) && r.legs[2].departure == r.legs[1].arrival &&
      RecommendedCount(r.legs[1].platforms) == 1
  {
    OneRecommendedPlatform(Flight, input.origin, input.destination);
  }

  /** A bus route is well formed, costs the fare plus 350 for the two
      autos and takes 50 minutes more than the bus. */
  lemma BusRouteShape(input: SearchInput, start: string, bus: BusTemplate, id: string)
    ensures var r := BusRoute(input, start, bus, id);
      WellFormed(r, input.origin, input.destination) && r.id == id && r.legs[0].departure == start &&
      r.totalCost == bus.cost + 350 && r.totalDurationMinutes == bus.duration + 50 &&
      r.reliability == 70 && r.legs[1].mode == Bus &&
      r.legs[0].mode == Auto && r.legs[0].durationMinutes == 20 && r.legs[0].cost == 150 &&
      r.legs[2].mode == Auto && r.legs[2].durationMinutes == 30 && r.legs[2].cost == 200
  {
    var o, d := input.origin, input.destination;
    var l0 := TimedLeg(Auto, o, o + " Bus Stand", start, 20, "20m", 150, "Auto Rickshaw");
    var l1 := TimedLeg(Bus, o, d, bus.departure, bus.duration, FormatDuration(bus.duration), bus.cost, bus.operator)
           .(busType := Some(bus.busType), platforms := BookingPlatforms(Bus, o, d));
    var l2 := LastMile(Auto, d + " Bus Stand", d, bus.departure, bus.duration, 30, "30m", 200, "Auto Rickshaw");
    assert BusRoute(input, start, bus, id) == Assemble(id, [l0, l1, l2], 70, None);
    AssembledThree(id, l0, l1, l2, 70, None);
  }

  /** The bus leg keeps time, the last auto leaves when it arrives, and its
      booking platforms recommend exactly one. */
  lemma BusMainLeg(input: SearchInput, start: string, bus: BusTemplate, id: string)
    ensures var r := BusRoute(input, start, bus, id);
      |r.legs| == 3 && Timed(r.legs[1]) && r.legs[2].departure == r.legs[1].arrival &&
      RecommendedCount(r.legs[1].platforms) == 1
  {
    OneRecommendedPlatform(Bus, input.origin, input.destination);
  }

  /** A live-train route is well formed, costs the estimated 3A fare plus
      750 and takes 70 minutes more than the train; the last mile leaves at
      the reported arrival when there is one. */
  lemma RealTrainRouteShape(input: SearchInput, start: string, train: TrainApi.TrainInfo)
    ensures var r := RealTrainRoute(input, start, train);
      WellFormed(r, input.origin, input.destination) && |r.legs| == 3 && r.legs[0].departure == start &&
      r.id == "route-real-train-" + train.trainNumber &&
      (train.arrival != "N/A" ==> r.legs[2].departure == r.legs[1].arrival) &&
      r.totalCost == TrainApi.EstimateTrainFare(train.distance, TrainApi.ThreeA) + 750 &&
      r.totalDurationMinutes == train.duration + 70 &&
      r.reliability == 90 && r.category == Some(TrainLabel) && r.legs[1].mode == Train &&
      r.legs[0].mode == Taxi && r.legs[0].durationMinutes == 30 && r.legs[0].cost == 350 &&
      r.legs[2].mode == Taxi && r.legs[2].durationMinutes == 40 && r.legs[2].cost == 400
  {
    var id := "route-real-train-" + train.trainNumber;
    var l0 := TimedLeg(Taxi, input.origin, train.from, start, 30, "30m", 350, "Uber/Ola");
    var l1 := TrainApi.FormatTrainForRoute(train, TrainApi.ThreeA);
    var l2 := if train.arrival != "N/A" then TimedLeg(Taxi, train.to, input.destination, train.arrival, 40, "40m", 400, "Uber/Ola")
              else LastMile(Taxi, train.to, input.destination, train.departure, train.duration, 40, "40m", 400, "Uber/Ola");
    assert RealTrainRoute(input, start, train) == Assemble(id, [l0, l1, l2], 90, Some(TrainLabel));
    AssembledThree(id, l0, l1, l2, 90, Some(TrainLabel));
  }

  /** The live-train route's last mile: from the reported arrival when
      there is one, otherwise from departure plus the train's duration
      (an arrival of 'N/A', which a last station reading 'Destination'
      gives). */
  lemma RealTrainLastMile(input: SearchInput, start: string, train: TrainApi.TrainInfo)
    ensures var leg := RealTrainRoute(input, start, train).legs[2];
      && leg.mode == Taxi && leg.from == train.to && leg.to == input.destination
      && (train.arrival != "N/A" ==>
            leg.departure == train.arrival && leg.arrival == AddMinutes(train.arrival, 40))
      && (train.arrival == "N/A" ==>
            leg.departure == AddMinutes(train.departure, train.duration) &&
            leg.arrival == AddMinutes(train.departure, train.duration + 40))
  {
    AddMinutesTwice(train.departure, train.duration, 40);
  }

  /** The generic fallback is one well-formed route: a single train leg
      from the origin to the destination, leaving at the start time, 2500
      rupees and twelve hours, reliability 75, labelled Recommended. */
  lemma GenericRouteShape(input: SearchInput, start: string)
    ensures var g := GenericRoutes(input, start);
      |g| == 1 && WellFormed(g[0], input.origin, input.destination) &&
      |g[0].legs| == 1 && g[0].legs[0].mode == Train && g[0].legs[0].departure == start &&
      g[0].totalCost == 2500 && g[0].totalDurationMinutes == 720 && g[0].totalDuration == "12h" &&
      g[0].reliability == 75 && g[0].category == Some(Recommended)
  {
    var g := GenericRoutes(input, start);
    assert g[0].legs[1..] == [];
    assert NatToString(12) == "12";
    assert FormatDuration(720) == "12h";
  }

  predicate AllWellFormed(s: seq<Route>, origin: string, destination: string) {
    forall i :: 0 <= i < |s| ==> WellFormed(s[i], origin, destination)
  }

  lemma RealTrainRoutesWellFormed(input: SearchInput, start: string, trains: seq<TrainApi.TrainInfo>)
    ensures AllWellFormed(RealTrainRoutes(input, start, trains), input.origin, input.destination)
  {
    var routes := RealTrainRoutes(input, start, trains);
    forall i | 0 <= i < |trains|
      ensures WellFormed(routes[i], input.origin, input.destination)
    {
      RealTrainRouteShape(input, start, trains[i]);
    }
  }

  lemma TemplateTrainRoutesWellFormed(input: SearchInput, start: string, trains: seq<TrainTemplate>, first: nat)
    ensures AllWellFormed(TemplateTrainRoutes(input, start, trains, first), input.origin, input.destination)
  {
    var routes := TemplateTrainRoutes(input, start, trains, first);
    forall i | 0 <= i < |trains|
      ensures WellFormed(routes[i], input.origin, input.destination)
    {
      TemplateTrainRouteShape(input, start, trains[i], RouteId(first + i));
    }
  }

  lemma FlightRoutesWellFormed(input: SearchInput, start: string, flights: seq<FlightTemplate>, first: nat)
    ensures AllWellFormed(FlightRoutes(input, start, flights, first), input.origin, input.destination)
  {
    var routes := FlightRoutes(input, start, flights, first);
    forall i | 0 <= i < |flights|
      ensures WellFormed(routes[i], input.origin, input.destination)
    {
      FlightRouteWellFormedAt(input, start, flights, first, i);
    }
  }

  lemma FlightRouteWellFormedAt(input: SearchInput, start: string, flights: seq<FlightTemplate>, first: nat, i: nat)
    requires i < |flights|
    ensures WellFormed(FlightRoutes(input, start, flights, first)[i], input.origin, input.destination)
  {
    FlightRouteShape(input, start, flights[i], RouteId(first + i));
  }

  lemma BusRoutesWellFormed(input: SearchInput, start: string, buses: seq<BusTemplate>, first: nat)
    ensures AllWellFormed(BusRoutes(input, start, buses, first), input.origin, input.destination)
  {
    var routes := BusRoutes(input, start, buses, first);
    forall i | 0 <= i < |buses|
      ensures WellFormed(routes[i], input.origin, input.destination)
    {
      BusRouteWellFormedAt(input, start, buses, first, i);
    }
  }

  lemma BusRouteWellFormedAt(input: SearchInput, start: string, buses: seq<BusTemplate>, first: nat, i: nat)
    requires i < |buses|
    ensures WellFormed(BusRoutes(input, start, buses, first)[i], input.origin, input.destination)
  {
    BusRouteShape(input, start, buses[i], RouteId(first + i));
  }

  lemma AllWellFormedAppend(a: seq<Route>, b: seq<Route>, origin: string, destination: string)
    requires AllWellFormed(a, origin, destination) && AllWellFormed(b, origin, destination)
    ensures AllWellFormed(a + b, origin, destination)
  {
    forall i | 0 <= i < |a + b|
      ensures WellFormed((a + b)[i], origin, destination)
    {
      if i >= |a| { assert (a + b)[i] == b[i - |a|]; }
    }
  }

  /** Every route of a corridor is well formed. */
  lemma CandidatesWellFormed(input: SearchInput, corridor: Corridor, realTrains: seq<TrainApi.TrainInfo>)
    ensures AllWellFormed(Candidates(input, corridor, realTrains), input.origin, input.destination)
  {
    if |realTrains| > 0 {
      LiveCandidatesWellFormed(input, corridor, realTrains);
    } else {
      TemplateCandidatesWellFormed(input, corridor, realTrains);
    }
  }

  lemma LiveCandidatesWellFormed(input: SearchInput, corridor: Corridor, realTrains: seq<TrainApi.TrainInfo>)
    requires |realTrains| > 0
    ensures AllWellFormed(Candidates(input, corridor, realTrains), input.origin, input.destination)
  {
    var start := StartTime(input.time);
    RealTrainRoutesWellFormed(input, start, realTrains);
    ThreeWellFormed(RealTrainRoutes(input, start, realTrains),
                    FlightRoutes(input, start, corridor.flightRoutes, 1),
                    BusRoutes(input, start, corridor.busRoutes, 1 + |corridor.flightRoutes|), input, start,
                    corridor, 1);
    assert Candidates(input, corridor, realTrains)
        == RealTrainRoutes(input, start, realTrains)
           + FlightRoutes(input, start, corridor.flightRoutes, 1)
           + BusRoutes(input, start, corridor.busRoutes, 1 + |corridor.flightRoutes|);
  }

  lemma TemplateCandidatesWellFormed(input: SearchInput, corridor: Corridor, realTrains: seq<TrainApi.TrainInfo>)
    requires |realTrains| == 0
    ensures AllWellFormed(Candidates(input, corridor, realTrains), input.origin, input.destination)
  {
    var start := StartTime(input.time);
    var trains := TemplateTrainRoutes(input, start, corridor.trainRoutes, 1);
    var flights := FlightRoutes(input, start, corridor.flightRoutes, 1 + |corridor.trainRoutes|);
    var buses := BusRoutes(input, start, corridor.busRoutes, 1 + |corridor.trainRoutes| + |corridor.flightRoutes|);
    TemplateTrainRoutesWellFormed(input, start, corridor.trainRoutes, 1);
    ThreeWellFormed(trains, flights, buses, input, start, corridor, 1 + |corridor.trainRoutes|);
    TemplateCandidates(input, corridor, realTrains);
  }

  /** Without live trains the candidates are the template trains, the
      flights and the buses, numbered on from each other. */
  lemma TemplateCandidates(input: SearchInput, corridor: Corridor, realTrains: seq<TrainApi.TrainInfo>)
    requires |realTrains| == 0
    ensures var start := StartTime(input.time);
      Candidates(input, corridor, realTrains)
        == TemplateTrainRoutes(input, start, corridor.trainRoutes, 1)
           + FlightRoutes(input, start, corridor.flightRoutes, 1 + |corridor.trainRoutes|)
           + BusRoutes(input, start, corridor.busRoutes, 1 + |corridor.trainRoutes| + |corridor.flightRoutes|)
  {
  }

  /** The train routes, then the corridor's flights and buses numbered
      from `flightsFrom`, are well formed when the train routes are. */
  lemma ThreeWellFormed(trains: seq<Route>, flights: seq<Route>, buses: seq<Route>, input: SearchInput,
                        start: string, corridor: Corridor, flightsFrom: nat)
    requires flights == FlightRoutes(input, start, corridor.flightRoutes, flightsFrom)
    requires buses == BusRoutes(input, start, corridor.busRoutes, flightsFrom + |corridor.flightRoutes|)
    requires AllWellFormed(trains, input.origin, input.destination)
    ensures AllWellFormed(trains + flights + buses, input.origin, input.destination)
  {
    FlightRoutesWellFormed(input, start, corridor.flightRoutes, flightsFrom);
    BusRoutesWellFormed(input, start, corridor.busRoutes, flightsFrom + |corridor.flightRoutes|);
    AllWellFormedAppend(trains, flights, input.origin, input.destination);
    AllWellFormedAppend(trains + flights, buses, input.origin, input.destination);
  }

  /** Ranking keeps a route's legs, id and totals: every ranked route is
      an input route with only its score and category changed. */
  lemma RankedFromInput(s: seq<Route>, preference: Preference, r: Route)
    requires r in Ranking.Ranked(s, preference)
    ensures exists i :: 0 <= i < |s| && r.(score := s[i].score, category := s[i].category) == s[i]
  {
    Ranking.RankedPermutesScored(s, preference);
    var scored := Ranking.ScoreAll(s, preference);
    assert r in multiset(scored);
    var i :| 0 <= i < |scored| && scored[i] == r;
    assert r.(score := s[i].score, category := s[i].category) == s[i];
  }

  /** Every route `generateMockRoutes` returns leaves from the origin,
      ends at the destination, keeps time on its first and last legs and
      has totals that add up. */
  lemma GeneratedRoutesWellFormed(input: SearchInput, realTrains: seq<TrainApi.TrainInfo>)
    ensures forall r :: r in GeneratedRoutes(input, realTrains) ==>
      WellFormed(r, input.origin, input.destination)
  {
    var key := RouteKey(input.origin, input.destination);
    if key == "" {
      GenericRouteShape(input, StartTime(input.time));
    } else {
      var c := Candidates(input, Templates[key], realTrains);
      CandidatesWellFormed(input, Templates[key], realTrains);
      forall r | r in GeneratedRoutes(input, realTrains)
        ensures WellFormed(r, input.origin, input.destination)
      {
        RankedFromInput(c, input.preference, r);
        var i :| 0 <= i < |c| && r.(score := c[i].score, category := c[i].category) == c[i];
      }
    }
  }

  /** The number of routes: one for a pair without a template, otherwise
      the live trains (or the template trains when there are none), the
      flights and the buses of the corridor. */
  lemma GeneratedRouteCount(input: SearchInput, realTrains: seq<TrainApi.TrainInfo>)
    ensures var key := RouteKey(input.origin, input.destination);
      |GeneratedRoutes(input, realTrains)| ==
        if key == "" then 1
        else var t := Templates[key];
          (if |realTrains| > 0 then |realTrains| else |t.trainRoutes|) + |t.flightRoutes| + |t.busRoutes|
  {
    var key := RouteKey(input.origin, input.destination);
    if key != "" {
      Ranking.RankedSorted(Candidates(input, Templates[key], realTrains), input.preference);
    }
  }

  /** Delhi to Mumbai without live trains: three template trains, three
      flights and two buses give eight routes; with live trains, the live
      trains replace the template trains one for one. */
  lemma DelhiMumbaiRouteCount(input: SearchInput, realTrains: seq<TrainApi.TrainInfo>)
    requires input.origin == "Delhi" && input.destination == "Mumbai"
    ensures |GeneratedRoutes(input, realTrains)| == if |realTrains| > 0 then |realTrains| + 5 else 8
  {
    DelhiMumbaiKey(input.origin, input.destination);
    DelhiMumbaiCorridor();
    GeneratedRouteCount(input, realTrains);
  }

  lemma DelhiMumbaiKey(origin: string, destination: string)
    requires origin == "Delhi" && destination == "Mumbai"
    ensures RouteKey(origin, destination) == "delhi-mumbai"
  {
    assert Lower("Delhi") + "-" + Lower("Mumbai") == "delhi-mumbai";
    assert "delhi-mumbai" in Templates;
  }

  lemma DelhiMumbaiCorridor()
    ensures "delhi-mumbai" in Templates
    ensures var t := Templates["delhi-mumbai"];
      |t.trainRoutes| == 3 && |t.flightRoutes| == 3 && |t.busRoutes| == 2
  {
  }

  /** No two routes share an id. */
  predicate DistinctIds(s: seq<Route>) {
    forall i, j :: 0 <= i < j < |s| ==> s[i].id != s[j].id
  }

  lemma RouteIdsDiffer(m: nat, n: nat)
    requires m != n
    ensures RouteId(m) != RouteId(n)
  {
    NatToStringRoundTrip(m);
    NatToStringRoundTrip(n);
    assert RouteId(m)[6..] == NatToString(m);
    assert RouteId(n)[6..] == NatToString(n);
  }

  lemma RealTrainIdsDiffer(a: string, b: string)
    requires a != b
    ensures "route-real-train-" + a != "route-real-train-" + b
  {
    assert ("route-real-train-" + a)[17..] == a;
    assert ("route-real-train-" + b)[17..] == b;
  }

  /** A live-train id is never a numbered id: "route-r…" against
      "route-" and a digit. */
  lemma RealTrainIdNotNumbered(number: string, n: nat)
    ensures "route-real-train-" + number != RouteId(n)
  {
    assert ("route-real-train-" + number)[6] == 'r';
    assert RouteId(n)[6] == NatToString(n)[0];
  }

  /** The routes of `s` are numbered consecutively from `first`. */
  predicate NumberedFrom(s: seq<Route>, first: nat) {
    forall k :: 0 <= k < |s| ==> s[k].id == RouteId(first + k)
  }

  /** The routes of `s` are named after the trains, one each. */
  predicate NamedAfter(s: seq<Route>, trains: seq<TrainApi.TrainInfo>) {
    |s| == |trains| && forall k :: 0 <= k < |s| ==> s[k].id == "route-real-train-" + trains[k].trainNumber
  }

  /** No two live trains share a number. */
  predicate DistinctNumbers(trains: seq<TrainApi.TrainInfo>) {
    forall i, j :: 0 <= i < j < |trains| ==> trains[i].trainNumber != trains[j].trainNumber
  }

  lemma RealTrainIds(input: SearchInput, start: string, trains: seq<TrainApi.TrainInfo>)
    ensures NamedAfter(RealTrainRoutes(input, start, trains), trains)
  {
    var routes := RealTrainRoutes(input, start, trains);
    forall k | 0 <= k < |routes|
      ensures routes[k].id == "route-real-train-" + trains[k].trainNumber
    {
      assert routes[k] == RealTrainRoute(input, start, trains[k]);
    }
  }

  lemma TemplateTrainIds(input: SearchInput, start: string, trains: seq<TrainTemplate>, first: nat)
    ensures NumberedFrom(TemplateTrainRoutes(input, start, trains, first), first)
  {
    var routes := TemplateTrainRoutes(input, start, trains, first);
    forall k | 0 <= k < |routes|
      ensures routes[k].id == RouteId(first + k)
    {
      assert routes[k] == TemplateTrainRoute(input, start, trains[k], RouteId(first + k));
    }
  }

  lemma FlightIds(input: SearchInput, start: string, flights: seq<FlightTemplate>, first: nat)
    ensures NumberedFrom(FlightRoutes(input, start, flights, first), first)
  {
    var routes := FlightRoutes(input, start, flights, first);
    forall k | 0 <= k < |routes|
      ensures routes[k].id == RouteId(first + k)
    {
      assert routes[k] == FlightRoute(input, start, flights[k], RouteId(first + k));
    }
  }

  lemma BusIds(input: SearchInput, start: string, buses: seq<BusTemplate>, first: nat)
    ensures NumberedFrom(BusRoutes(input, start, buses, first), first)
  {
    var routes := BusRoutes(input, start, buses, first);
    forall k | 0 <= k < |routes|
      ensures routes[k].id == RouteId(first + k)
    {
      assert routes[k] == BusRoute(input, start, buses[k], RouteId(first + k));
    }
  }

  lemma NumberedAppend(a: seq<Route>, b: seq<Route>, first: nat, second: nat)
    requires second == first + |a|
    requires NumberedFrom(a, first) && NumberedFrom(b, second)
    ensures NumberedFrom(a + b, first)
  {
    forall k | 0 <= k < |a + b|
      ensures (a + b)[k].id == RouteId(first + k)
    {
      if k >= |a| { assert (a + b)[k] == b[k - |a|]; }
    }
  }

  lemma NumberedDistinct(s: seq<Route>, first: nat)
    requires NumberedFrom(s, first)
    ensures DistinctIds(s)
  {
    forall i, j | 0 <= i < j < |s|
      ensures s[i].id != s[j].id
    {
      RouteIdsDiffer(first + i, first + j);
    }
  }

  /** Live-train routes followed by two consecutively numbered runs have
      distinct ids. */
  lemma NamedThenNumbered(a: seq<Route>, trains: seq<TrainApi.TrainInfo>, b: seq<Route>, c: seq<Route>,
                           first: nat, second: nat)
    requires second == first + |b|
    requires NamedAfter(a, trains) && DistinctNumbers(trains)
    requires NumberedFrom(b, first) && NumberedFrom(c, second)
    ensures DistinctIds(a + b + c)
  {
    NumberedAppend(b, c, first, second);
    var s := a + (b + c);
    forall i, j | 0 <= i < j < |s|
      ensures s[i].id != s[j].id
    {
      if j < |a| {
        assert s[i] == a[i] && s[j] == a[j];
        RealTrainIdsDiffer(trains[i].trainNumber, trains[j].trainNumber);
      } else if i < |a| {
        assert s[i] == a[i] && s[j] == (b + c)[j - |a|];
        RealTrainIdNotNumbered(trains[i].trainNumber, first + (j - |a|));
      } else {
        assert s[i] == (b + c)[i - |a|] && s[j] == (b + c)[j - |a|];
        RouteIdsDiffer(first + (i - |a|), first + (j - |a|));
      }
    }
    assert a + b + c == s;
  }

  /** Three consecutively numbered runs have distinct ids. */
  lemma NumberedThree(a: seq<Route>, b: seq<Route>, c: seq<Route>, second: nat, third: nat)
    requires second == 1 + |a| && third == second + |b|
    requires NumberedFrom(a, 1) && NumberedFrom(b, second) && NumberedFrom(c, third)
    ensures DistinctIds(a + b + c)
  {
    NumberedAppend(a, b, 1, second);
    NumberedAppend(a + b, c, 1, third);
    NumberedDistinct(a + b + c, 1);
  }

  /** A corridor's routes have distinct ids when the live trains have
      distinct numbers: live-train ids carry the train number, the others
      are numbered consecutively from 1. */
  lemma CandidateIdsDistinct(input: SearchInput, corridor: Corridor, realTrains: seq<TrainApi.TrainInfo>)
    requires DistinctNumbers(realTrains)
    ensures DistinctIds(Candidates(input, corridor, realTrains))
  {
    if |realTrains| > 0 {
      LiveCandidateIds(input, corridor, realTrains);
    } else {
      TemplateCandidateIds(input, corridor, realTrains);
    }
  }

  lemma LiveCandidateIds(input: SearchInput, corridor: Corridor, realTrains: seq<TrainApi.TrainInfo>)
    requires |realTrains| > 0 && DistinctNumbers(realTrains)
    ensures DistinctIds(Candidates(input, corridor, realTrains))
  {
    var start := StartTime(input.time);
    var busesFrom := 1 + |corridor.flightRoutes|;
    FlightIds(input, start, corridor.flightRoutes, 1);
    BusIds(input, start, corridor.busRoutes, busesFrom);
    RealTrainIds(input, start, realTrains);
    NamedThenNumbered(RealTrainRoutes(input, start, realTrains), realTrains,
                      FlightRoutes(input, start, corridor.flightRoutes, 1),
                      BusRoutes(input, start, corridor.busRoutes, busesFrom), 1, busesFrom);
    assert Candidates(input, corridor, realTrains)
        == RealTrainRoutes(input, start, realTrains)
           + FlightRoutes(input, start, corridor.flightRoutes, 1)
           + BusRoutes(input, start, corridor.busRoutes, busesFrom);
  }

  lemma TemplateCandidateIds(input: SearchInput, corridor: Corridor, realTrains: seq<TrainApi.TrainInfo>)
    requires |realTrains| == 0
    ensures DistinctIds(Candidates(input, corridor, realTrains))
  {
    var start := StartTime(input.time);
    var flightsFrom := 1 + |corridor.trainRoutes|;
    var busesFrom := 1 + |corridor.trainRoutes| + |corridor.flightRoutes|;
    TemplateTrainIds(input, start, corridor.trainRoutes, 1);
    FlightIds(input, start, corridor.flightRoutes, flightsFrom);
    BusIds(input, start, corridor.busRoutes, busesFrom);
    NumberedThree(TemplateTrainRoutes(input, start, corridor.trainRoutes, 1),
                  FlightRoutes(input, start, corridor.flightRoutes, flightsFrom),
                  BusRoutes(input, start, corridor.busRoutes, busesFrom), flightsFrom, busesFrom);
    assert Candidates(input, corridor, realTrains)
        == TemplateTrainRoutes(input, start, corridor.trainRoutes, 1)
           + FlightRoutes(input, start, corridor.flightRoutes, flightsFrom)
           + BusRoutes(input, start, corridor.busRoutes, busesFrom);
  }

  lemma CountTwice(s: seq<Route>, i: nat, j: nat)
    requires i < j < |s| && s[i] == s[j]
    ensures multiset(s)[s[i]] >= 2
  {
    assert s == s[..j] + [s[j]] + s[j + 1..];
    assert s[..j][i] == s[i];
    assert s[i] in multiset(s[..j]);
  }

  lemma TwoPositions(s: seq<Route>, x: Route) returns (p: nat, q: nat)
    requires multiset(s)[x] >= 2
    ensures p < q < |s| && s[p] == x && s[q] == x
  {
    assert x in multiset(s);
    var k :| 0 <= k < |s| && s[k] == x;
    var rest := s[..k] + s[k + 1..];
    assert s == s[..k] + [s[k]] + s[k + 1..];
    assert multiset(s) == multiset(rest) + multiset{x};
    assert x in multiset(rest);
    var r :| 0 <= r < |rest| && rest[r] == x;
    if r < k {
      assert rest[r] == s[r];
      p, q := r, k;
    } else {
      assert rest[r] == s[r + 1];
      p, q := k, r + 1;
    }
  }

  /** A permutation of a list with distinct ids has distinct ids. */
  lemma DistinctIdsPermutation(a: seq<Route>, b: seq<Route>)
    requires multiset(a) == multiset(b) && DistinctIds(b)
    ensures DistinctIds(a)
  {
    forall i, j | 0 <= i < j < |a|
      ensures a[i].id != a[j].id
    {
      assert a[i] in multiset(b) && a[j] in multiset(b);
      if a[i] == a[j] {
        CountTwice(a, i, j);
        var p, q := TwoPositions(b, a[i]);
        assert false;
      } else {
        var p :| 0 <= p < |b| && b[p] == a[i];
        var q :| 0 <= q < |b| && b[q] == a[j];
        if p < q {
          assert b[p].id != b[q].id;
        } else {
          assert b[q].id != b[p].id;
        }
      }
    }
  }

  /** The routes `generateMockRoutes` returns have distinct ids when the
      live trains have distinct numbers. */
  lemma GeneratedIdsDistinct(input: SearchInput, realTrains: seq<TrainApi.TrainInfo>)
    requires DistinctNumbers(realTrains)
    ensures DistinctIds(GeneratedRoutes(input, realTrains))
  {
    var key := RouteKey(input.origin, input.destination);
    if key != "" {
      var c := Candidates(input, Templates[key], realTrains);
      var scored := Ranking.ScoreAll(c, input.preference);
      CandidateIdsDistinct(input, Templates[key], realTrains);
      Ranking.RankedPermutesScored(c, input.preference);
      forall i, j | 0 <= i < j < |scored|
        ensures scored[i].id != scored[j].id
      {
        assert scored[i].id == c[i].id && scored[j].id == c[j].id;
      }
      DistinctIdsPermutation(Ranking.Ranked(c, input.preference), scored);
    }
  }
}

/** Train data (lib/services/trainApiService.ts): turning a running-status
    response into a train record, the overnight duration rule, the fare table,
    the train leg, and the popular-train lookup behind `searchTrains`.  The
    HTTP request is a parameter: `respond(number)` is the decoded response
    for a train number, or None when the request fails. */
module TrainApi {
  import opened Wrappers
  import opened Text
  import opened RouteTypes

  datatype Station = Station(
    isCurrent: bool, name: string, distance: string, timing: string,
    delay: string, platform: string, halt: string)

  /** The decoded response body; `data` may be missing. */
  datatype TrainRouteResponse = TrainRouteResponse(
    success: bool, trainName: string, message: string, updatedTime: string,
    data: Option<seq<Station>>)

  datatype TrainInfo = TrainInfo(
    trainNumber: string, trainName: string, from: string, to: string,
    departure: string, arrival: string, duration: int, distance: int,
    delay: string, stations: seq<Station>)

  datatype SeatClass = SL | ThreeA | TwoA | CC

  datatype PopularTrain = PopularTrain(number: string, name: string, route: string)

  /** One known train per forward city-pair key. */
  const PopularTrains: map<string, PopularTrain> := map[
    "delhi-mumbai" := PopularTrain("12951", "Rajdhani Express", "New Delhi → Mumbai Central"),
    "mumbai-delhi" := PopularTrain("12952", "Mumbai Rajdhani", "Mumbai Central → New Delhi"),
    "bangalore-delhi" := PopularTrain("12627", "Karnataka Express", "Bangalore → New Delhi"),
    "delhi-bangalore" := PopularTrain("12628", "Karnataka Express", "New Delhi → Bangalore"),
    "bangalore-hyderabad" := PopularTrain("12785", "Kacheguda Express", "Bangalore → Hyderabad"),
    "chennai-bangalore" := PopularTrain("12007", "Shatabdi Express", "Chennai → Bangalore"),
    "pune-mumbai" := PopularTrain("12123", "Deccan Queen", "Pune → Mumbai")
  ]

  /** A timing such as "17:0717:00" (actual then scheduled) keeps its first
      five characters. */
  function Truncate5(timing: string): (r: string)
    ensures |r| <= 5 && |r| <= |timing| && r == timing[..|r|]
    ensures |timing| <= 5 ==> r == timing
    ensures |timing| > 5 ==> r == timing[..5]
  {
    if |timing| > 5 then timing[..5] else timing
  }

  /** Minutes from departure to arrival, adding a day when the arrival clock
      is earlier; 0 when the arrival is 'Destination' or 'N/A'; None (NaN)
      when a time does not split into numbers. */
  function CalculateDuration(departure: string, arrival: string): Option<int> {
    if arrival == "Destination" || arrival == "N/A" then Some(0)
    else
      match (HourMinute(departure), HourMinute(arrival))
      case (Some(d), Some(a)) =>
        var minutes := (a.0 * 60 + a.1) - (d.0 * 60 + d.1);
        Some(if minutes < 0 then minutes + 24 * 60 else minutes)
      case _ => None
  }

  lemma HoursAndMinutes(t: nat)
    ensures (t / 60) * 60 + t % 60 == t
  {
  }

  lemma WithinOneDay(x: int)
    requires -1440 < x < 1440
    ensures x % 1440 == if x < 0 then x + 1440 else x
  {
  }

  /** Two times that split into hour and minute numbers. */
  lemma CalculateDurationOfParts(departure: string, arrival: string, d: (int, int), a: (int, int))
    requires HourMinute(departure) == Some(d) && HourMinute(arrival) == Some(a)
    ensures CalculateDuration(departure, arrival)
         == Some(var m := (a.0 * 60 + a.1) - (d.0 * 60 + d.1); if m < 0 then m + 24 * 60 else m)
  {
    if ':' !in arrival { HourMinuteNeedsColon(arrival); }
    assert ':' !in "Destination" && ':' !in "N/A";
  }

  /** For two wall-clock times the duration is their difference modulo a day. */
  lemma CalculateDurationOfClocks(dep: nat, arr: nat)
    requires dep < 1440 && arr < 1440
    ensures CalculateDuration(ClockText(dep), ClockText(arr)) == Some((arr - dep) % 1440)
    ensures 0 <= (arr - dep) % 1440 < 1440
  {
    HourMinuteOfClockText(dep);
    HourMinuteOfClockText(arr);
    CalculateDurationOfParts(ClockText(dep), ClockText(arr), (dep / 60, dep % 60), (arr / 60, arr % 60));
    HoursAndMinutes(arr);
    HoursAndMinutes(dep);
    WithinOneDay(arr - dep);
  }

  /** The distance field: '-' is 0, otherwise the integer before " km"
      (`parseInt` after removing the first " km"). */
  function ParseDistance(field: string): Option<int> {
    if field != "-" then ParseIntPrefix(ReplaceFirst(field, " km", "")) else Some(0)
  }

  lemma ParseDistanceKm(n: nat)
    ensures ParseDistance(NatToString(n) + " km") == Some(n)
  {
    var s := NatToString(n);
    assert forall i :: 0 <= i < |s| ==> s[i] != " km"[0];
    NoEarlierOccurrence(s, " km", "");
    ReplaceFirstAfter(s, " km", "", "");
    assert s + " km" + "" == s + " km" && s + "" + "" == s;
    ParseIntOfRendered(n);
    assert (s + " km")[0] != '-';
  }

  /** The display name: the first " Running Status" is removed. */
  function TrainName(raw: string): string {
    ReplaceFirst(raw, " Running Status", "")
  }

  lemma TrainNameStripsSuffix(name: string)
    requires forall i: nat :: i < |name| ==> !OccursAt(name + " Running Status" + "", " Running Status", i)
    ensures TrainName(name + " Running Status") == name
  {
    ReplaceFirstAfter(name, " Running Status", "", "");
    assert name + " Running Status" + "" == name + " Running Status" && name + "" + "" == name;
  }

  /** The arrival field before it is stored: 'Destination' is kept whole,
      any other timing is cut like the departure. */
  function ArrivalTime(timing: string): (r: string)
    ensures timing == "Destination" ==> r == "Destination"
    ensures timing != "Destination" ==> r == Truncate5(timing) && r != "Destination"
  {
    if timing == "Destination" then timing else Truncate5(timing)
  }

  /** The parsing steps of `fetchTrainRoute` applied to a decoded response.
      None when the response is unsuccessful or has no stations, and also when
      a timing or the distance is not numeric (the source would carry NaN). */
  function ParseTrainRoute(trainNumber: string, resp: TrainRouteResponse): (r: Option<TrainInfo>)
    ensures (!resp.success || resp.data.None? || resp.data.value == []) ==> r.None?
    ensures resp.success && resp.data.Some? && resp.data.value != [] ==>
      var stations := resp.data.value; var last := stations[|stations| - 1];
      (r.Some? <==> ParseDistance(last.distance).Some? &&
                    CalculateDuration(Truncate5(stations[0].timing), ArrivalTime(last.timing)).Some?)
    ensures r.Some? ==> var stations := resp.data.value; var last := stations[|stations| - 1];
      && r.value.trainNumber == trainNumber
      && r.value.trainName == TrainName(resp.trainName)
      && r.value.stations == stations
      && r.value.from == stations[0].name
      && r.value.to == last.name
      && r.value.departure == Truncate5(stations[0].timing)
      && (last.timing == "Destination" ==> r.value.arrival == "N/A")
      && (last.timing != "Destination" ==> r.value.arrival == Truncate5(last.timing))
      && Some(r.value.distance) == ParseDistance(last.distance)
      && Some(r.value.duration) == CalculateDuration(r.value.departure, ArrivalTime(last.timing))
      && (stations[0].delay == "" ==> r.value.delay == "On Time")
      && (stations[0].delay != "" ==> r.value.delay == stations[0].delay)
  {
    if !resp.success || resp.data.None? || |resp.data.value| == 0 then None
    else
      var stations := resp.data.value;
      var source := stations[0];
      var destination := stations[|stations| - 1];
      var departure := Truncate5(source.timing);
      var arrival := ArrivalTime(destination.timing);
      var distance := ParseDistance(destination.distance);
      var duration := CalculateDuration(departure, arrival);
      if distance.None? || duration.None? then None
      else
        Some(TrainInfo(
          trainNumber,
          TrainName(resp.trainName),
          source.name,
          destination.name,
          departure,
          if arrival == "Destination" then "N/A" else arrival,
          duration.value,
          distance.value,
          if source.delay == "" then "On Time" else source.delay,
          stations))
  }

  /** A last station whose timing reads 'Destination' still yields a train
      when its distance parses: the arrival is stored as 'N/A' and the
      duration is 0. */
  lemma DestinationArrivalParses(trainNumber: string, resp: TrainRouteResponse)
    requires resp.success && resp.data.Some? && resp.data.value != []
    requires var last := resp.data.value[|resp.data.value| - 1];
      last.timing == "Destination" && ParseDistance(last.distance).Some?
    ensures var r := ParseTrainRoute(trainNumber, resp);
      r.Some? && r.value.arrival == "N/A" && r.value.duration == 0
  {
  }

  /** `fetchTrainRoute`: a failed request gives null (None). */
  function FetchTrainRoute(trainNumber: string, respond: string -> Option<TrainRouteResponse>): Option<TrainInfo> {
    match respond(trainNumber)
    case None => None
    case Some(resp) => ParseTrainRoute(trainNumber, resp)
  }

  function Rate(c: SeatClass): real {
    match c
    case SL => 1.5
    case ThreeA => 3.0
    case TwoA => 4.5
    case CC => 2.0
  }

  /** `Math.round`: the nearest integer, halves rounded up. */
  function Round(x: real): (r: int)
    ensures x - 0.5 < r as real <= x + 0.5
  {
    (x + 0.5).Floor
  }

  /** The fare is the distance times the per-class rate, rounded. */
  function EstimateTrainFare(distance: int, c: SeatClass): (fare: int)
    ensures distance as real * Rate(c) - 0.5 < fare as real <= distance as real * Rate(c) + 0.5
  {
    Round(distance as real * Rate(c))
  }

  /** A longer journey never costs less, and a zero distance is free. */
  lemma FareMonotone(d1: int, d2: int, c: SeatClass)
    requires d1 <= d2
    ensures EstimateTrainFare(d1, c) <= EstimateTrainFare(d2, c)
    ensures EstimateTrainFare(0, c) == 0
  {
    var x1, x2 := d1 as real * Rate(c) + 0.5, d2 as real * Rate(c) + 0.5;
    assert x1 <= x2;
    assert x1.Floor as real <= x1 <= x2;
  }

  /** The duration text of a train leg: always "{h}h {m}m". */
  function TrainDurationText(minutes: int): string {
    IntToString(minutes / 60) + "h " + IntToString(JsRem(minutes, 60)) + "m"
  }

  /** The main leg built from a train record. */
  function FormatTrainForRoute(train: TrainInfo, c: SeatClass): (leg: Leg)
    ensures leg.mode == Train && leg.from == train.from && leg.to == train.to
    ensures leg.departure == train.departure && leg.arrival == train.arrival
    ensures leg.durationMinutes == train.duration
    ensures leg.duration == TrainDurationText(train.duration)
    ensures leg.cost == EstimateTrainFare(train.distance, c)
    ensures |leg.platforms| == 2 && RecommendedCount(leg.platforms) == 1
    ensures leg.platforms[0].name == "IRCTC" && leg.platforms[0].recommended
  {
    var platforms :=
      [Platform("IRCTC", "https://www.irctc.co.in/nget/train-search", true, "Official railway booking"),
       Platform("ConfirmTkt", "https://www.confirmtkt.com/train-tickets/" + train.trainNumber, false,
                "Tatkal booking assistance")];
    assert platforms[1..][1..] == [];
    assert RecommendedCount(platforms[1..]) == 0;
    Leg(Train, train.from, train.to, train.departure, train.arrival,
        TrainDurationText(train.duration),
        train.duration,
        EstimateTrainFare(train.distance, c),
        train.trainName,
        Some(train.trainNumber), None, None,
        platforms)
  }

  /** `getTrainsBetweenCities`: only the forward key is looked up, and at
      most one train is returned. */
  function TrainsBetweenCities(origin: string, destination: string,
                               respond: string -> Option<TrainRouteResponse>): (trains: seq<TrainInfo>)
    ensures |trains| <= 1
    ensures var key := Lower(origin) + "-" + Lower(destination);
      trains != [] ==> key in PopularTrains && FetchTrainRoute(PopularTrains[key].number, respond) == Some(trains[0])
    ensures var key := Lower(origin) + "-" + Lower(destination);
      key in PopularTrains && FetchTrainRoute(PopularTrains[key].number, respond).Some? ==>
        trains == [FetchTrainRoute(PopularTrains[key].number, respond).value]
  {
    var key := Lower(origin) + "-" + Lower(destination);
    if key in PopularTrains then
      match FetchTrainRoute(PopularTrains[key].number, respond)
      case Some(t) => [t]
      case None => []
    else []
  }

  /** `searchTrains`: both names are lower-cased and trimmed first. */
  function SearchTrains(origin: string, destination: string,
                        respond: string -> Option<TrainRouteResponse>): (trains: seq<TrainInfo>)
    ensures |trains| <= 1
    ensures var key := Trim(Lower(origin)) + "-" + Trim(Lower(destination));
      trains != [] ==> key in PopularTrains && FetchTrainRoute(PopularTrains[key].number, respond) == Some(trains[0])
    ensures var key := Trim(Lower(origin)) + "-" + Trim(Lower(destination));
      key in PopularTrains && FetchTrainRoute(PopularTrains[key].number, respond).Some? ==>
        trains == [FetchTrainRoute(PopularTrains[key].number, respond).value]
  {
    LowerOfTrimmedLower(origin);
    LowerOfTrimmedLower(destination);
    TrainsBetweenCities(Trim(Lower(origin)), Trim(Lower(destination)), respond)
  }

  lemma LowerOfTrimmedLower(s: string)
    ensures Lower(Trim(Lower(s))) == Trim(Lower(s))
  {
    TrimNoUpper(Lower(s));
    LowerOfNoUpper(Trim(Lower(s)));
  }
}

/** The backend's `searchRoutes` handler: a per-address fixed-window rate
    limiter of 100 requests a minute, the request schema with its
    defaults, and the two fixed routes it answers with.  `Date.now()` is
    the parameter `now`, in milliseconds. */
module TripController {
  import opened Wrappers
  import opened SearchValidation
  import Sanitize

  const RateLimitWindow: int := 60 * 1000
  const MaxRequests: int := 100

  // ---------------------------------------------------------------------
  // The per-address rate limiter

  datatype RequestCount = RequestCount(count: int, resetTime: int)

  /** `req.ip || req.socket.remoteAddress || 'unknown'`: a missing or
      empty address falls through to the next. */
  function ClientIp(ip: Option<string>, remoteAddress: Option<string>): (r: string)
    ensures r != ""
    ensures ip.Some? && ip.value != "" ==> r == ip.value
    ensures (ip.None? || ip.value == "") && remoteAddress.Some? && remoteAddress.value != "" ==>
      r == remoteAddress.value
    ensures (ip.None? || ip.value == "") && (remoteAddress.None? || remoteAddress.value == "") ==> r == "unknown"
  {
    if ip.Some? && ip.value != "" then ip.value
    else if remoteAddress.Some? && remoteAddress.value != "" then remoteAddress.value
    else "unknown"
  }


  /** One request from an address at time `now`: the record stored
      afterwards, or None when the request is refused with 429 and the
      record is left alone.  A window closes at `now == resetTime`. */
  function AdmitStep(data: Option<RequestCount>, now: int): Option<RequestCount> {
    if data.Some? && now < data.value.resetTime then
      if data.value.count >= MaxRequests then None
      else Some(data.value.(count := data.value.count + 1))
    else Some(RequestCount(1, now + RateLimitWindow))
  }

  /** A missing or closed window restarts at 1 with a fresh minute; an open
      window refuses at 100 and otherwise counts one more; no stored count
      leaves 1 .. 100. */
  lemma AdmitStepCases(data: Option<RequestCount>, now: int)
    requires data.Some? ==> 1 <= data.value.count <= MaxRequests
    ensures data.None? || now >= data.value.resetTime ==> AdmitStep(data, now) == Some(RequestCount(1, now + 60000))
    ensures data.Some? && now < data.value.resetTime ==>
      (AdmitStep(data, now).None? <==> data.value.count == MaxRequests)
    ensures data.Some? && now < data.value.resetTime && AdmitStep(data, now).Some? ==>
      AdmitStep(data, now).value == RequestCount(data.value.count + 1, data.value.resetTime)
    ensures AdmitStep(data, now).Some? ==> 1 <= AdmitStep(data, now).value.count <= MaxRequests
  {
  }

  /** The requests admitted in a run of requests from one address. */
  function AdmittedCalls(data: Option<RequestCount>, times: seq<int>): nat
    decreases |times|
  {
    if times == [] then 0
    else match AdmitStep(data, times[0])
      case Some(d) => 1 + AdmittedCalls(Some(d), times[1..])
      case None => AdmittedCalls(data, times[1..])
  }

  /** While a window is open, no more than what is left of its 100
      requests is admitted. */
  lemma {:induction false} OpenWindowAdmitsAtMost(d: RequestCount, times: seq<int>)
    requires forall k :: 0 <= k < |times| ==> times[k] < d.resetTime
    ensures AdmittedCalls(Some(d), times) <= if d.count < MaxRequests then MaxRequests - d.count else 0
    decreases |times|
  {
    if times != [] {
      match AdmitStep(Some(d), times[0])
      case Some(d') => OpenWindowAdmitsAtMost(d', times[1..]);
      case None => OpenWindowAdmitsAtMost(d, times[1..]);
    }
  }

  /** A minute opened by a first request admits at most 100 requests. */
  lemma NewWindowAdmitsAtMost(start: int, times: seq<int>)
    requires |times| > 0 && times[0] == start
    requires forall k :: 0 <= k < |times| ==> times[k] < start + RateLimitWindow
    ensures AdmittedCalls(None, times) <= MaxRequests
  {
    OpenWindowAdmitsAtMost(RequestCount(1, start + RateLimitWindow), times[1..]);
  }

  /** At the instant `now == resetTime` the two limiters disagree: the
      controller opens a new window, while `checkRateLimit` still counts
      the old one, and refuses when that one is full. */
  lemma WindowBoundaryDiffers(count: int, resetTime: int)
    requires 1 <= count <= MaxRequests
    ensures AdmitStep(Some(RequestCount(count, resetTime)), resetTime) == Some(RequestCount(1, resetTime + RateLimitWindow))
    ensures var (e, r) := Sanitize.RateLimitStep(Some(Sanitize.RateLimitEntry(count, resetTime)), MaxRequests, RateLimitWindow, resetTime);
      e.resetTime == resetTime && (count == MaxRequests <==> !r.allowed)
  {
  }

  predicate AllWithin(m: map<string, RequestCount>) {
    forall k :: k in m ==> 1 <= m[k].count <= MaxRequests
  }

  /** The module-level `ipRequestCounts` map. */
  class IpRateLimiter {
    var counts: map<string, RequestCount>

    constructor ()
      ensures counts == map[]
    {
      counts := map[];
    }

    /** The rate-limit part of `searchRoutes`: true when the request may
        proceed. */
    method Admit(clientIp: string, now: int) returns (admitted: bool)
      modifies this
      ensures admitted <==> AdmitStep(Lookup(old(counts), clientIp), now).Some?
      ensures admitted ==> counts == old(counts)[clientIp := AdmitStep(Lookup(old(counts), clientIp), now).value]
      ensures !admitted ==> counts == old(counts)
      ensures old(AllWithin(counts)) ==> AllWithin(counts)
    {
      var requestData := Lookup(counts, clientIp);
      if requestData.Some? && now < requestData.value.resetTime {
        if requestData.value.count >= MaxRequests {
          return false;
        }
        counts := counts[clientIp := requestData.value.(count := requestData.value.count + 1)];
      } else {
        counts := counts[clientIp := RequestCount(1, now + RateLimitWindow)];
      }
      admitted := true;
    }
  }

  // ---------------------------------------------------------------------
  // The request schema

  datatype StopBody = StopBody(location: string, duration: real)

  /** The request body; `passengers` and `preference` may be missing. */
  datatype TripRequestBody = TripRequestBody(
    origin: string, destination: string, date: string, time: Option<string>, passengers: Option<real>,
    preference: Option<string>, stops: Option<seq<StopBody>>)

  datatype TripRequest = TripRequest(
    origin: string, destination: string, date: string, time: Option<string>, passengers: real,
    preference: string, stops: Option<seq<StopBody>>)

  /** The rules of the controller's `tripInputSchema`; the time is any
      string and a stop's fields are unconstrained. */
  predicate TripRequestValid(body: TripRequestBody) {
    |body.origin| >= 2 && |body.destination| >= 2 && DateFormat(body.date) &&
    (body.passengers.Some? ==> IsInteger(body.passengers.value) && 1.0 <= body.passengers.value <= 9.0) &&
    (body.preference.Some? ==> PreferenceValid(body.preference.value))
  }

  /** `tripInputSchema.safeParse(body)`: the request with one passenger
      and 'balanced' filled in when missing, or nothing. */
  function ParseTripRequest(body: TripRequestBody): Option<TripRequest> {
    if TripRequestValid(body) then
      Some(TripRequest(body.origin, body.destination, body.date, body.time, body.passengers.GetOr(1.0),
                       body.preference.GetOr("balanced"), body.stops))
    else None
  }

  /** A parsed request always has a whole number of passengers from 1 to 9
      and a known preference, whether given or defaulted, and keeps the
      rest of the body. */
  lemma ParsedRequestValid(body: TripRequestBody)
    ensures ParseTripRequest(body).Some? <==> TripRequestValid(body)
    ensures ParseTripRequest(body).Some? ==>
      var t := ParseTripRequest(body).value;
      IsInteger(t.passengers) && 1.0 <= t.passengers <= 9.0 && PreferenceValid(t.preference) &&
      |t.origin| >= 2 && |t.destination| >= 2 && DateFormat(t.date) &&
      (body.passengers.None? ==> t.passengers == 1.0) && (body.preference.None? ==> t.preference == "balanced")
  {
  }

  // ---------------------------------------------------------------------
  // The fixed routes

  /** A leg of a fixed route; the train leg carries a `trainNumber`, the
      flight leg a `flightNumber`. */
  datatype MockLeg = MockLeg(
    mode: string, operator: Option<string>, trainNumber: Option<string>, flightNumber: Option<string>,
    from: string, to: string,
    departure: string, arrival: string, cost: int)

  datatype MockRoute = MockRoute(id: string, totalCost: int, totalDuration: string, legs: seq<MockLeg>)

  /** The two routes the handler returns for every valid request. */
  function MockRoutes(origin: string, destination: string): seq<MockRoute> {
    var originStation, destinationStation := origin + " Railway Station", destination + " Railway Station";
    var originAirport, destinationAirport := origin + " Airport", destination + " Airport";
    [MockRoute("route-1", 3190, "15h 30m",
       [MockLeg("taxi", None, None, None, origin, originStation, "08:00", "08:30", 350),
        MockLeg("train", Some("Indian Railways"), Some("12951"), None, originStation, destinationStation, "09:00", "23:30", 2800),
        MockLeg("metro", None, None, None, destinationStation, destination, "23:45", "00:15", 40)]),
     MockRoute("route-2", 5560, "4h 15m",
       [MockLeg("metro", None, None, None, origin, originAirport, "08:00", "08:45", 60),
        MockLeg("flight", Some("IndiGo"), None, Some("6E-505"), originAirport, destinationAirport, "11:00", "13:15", 4500),
        MockLeg("taxi", None, None, None, destinationAirport, destination, "13:30", "14:45", 1000)])]
  }

  function LegCost(legs: seq<MockLeg>): int
    decreases |legs|
  {
    if legs == [] then 0 else legs[0].cost + LegCost(legs[1..])
  }

  /** Each leg ends where the next begins. */
  predicate Chained(legs: seq<MockLeg>) {
    forall k :: 0 < k < |legs| ==> legs[k - 1].to == legs[k].from
  }

  /** Both fixed routes cost the sum of their legs (350 + 2800 + 40 and
      60 + 4500 + 1000) and run from the origin to the destination leg by
      leg. */
  lemma MockRoutesConsistent(origin: string, destination: string)
    ensures var routes := MockRoutes(origin, destination);
      |routes| == 2 &&
      forall k :: 0 <= k < |routes| ==>
        routes[k].totalCost == LegCost(routes[k].legs) && |routes[k].legs| == 3 &&
        routes[k].legs[0].from == origin && routes[k].legs[2].to == destination && Chained(routes[k].legs)
  {
    var routes := MockRoutes(origin, destination);
    ThreeLegCost(routes[0].legs);
    ThreeLegCost(routes[1].legs);
  }

  lemma ThreeLegCost(legs: seq<MockLeg>)
    requires |legs| == 3
    ensures LegCost(legs) == legs[0].cost + legs[1].cost + legs[2].cost
  {
    assert LegCost(legs[2..]) == legs[2].cost + LegCost([]) by {
      assert legs[2..][1..] == [];
    }
    assert legs[1..][1..] == legs[2..];
  }

  // ---------------------------------------------------------------------
  // The handler

  datatype Response = TooManyRequests | BadRequest | Ok(routes: seq<MockRoute>) {
    function Status(): int {
      match this
      case TooManyRequests => 429
      case BadRequest => 400
      case Ok(_) => 200
    }
  }

  /** `searchRoutes`: the rate limit first (a request refused there is not
      validated), then the schema, then the fixed routes for the parsed
      origin and destination. */
  method SearchRoutes(limiter: IpRateLimiter, clientIp: string, now: int, body: TripRequestBody)
    returns (res: Response)
    modifies limiter
    ensures res.TooManyRequests? <==> AdmitStep(Lookup(old(limiter.counts), clientIp), now).None?
    ensures !res.TooManyRequests? ==> (res.BadRequest? <==> !TripRequestValid(body))
    ensures res.Ok? ==> res.routes == MockRoutes(body.origin, body.destination)
    ensures res.TooManyRequests? ==> limiter.counts == old(limiter.counts)
    ensures !res.TooManyRequests? ==>
      limiter.counts == old(limiter.counts)[clientIp := AdmitStep(Lookup(old(limiter.counts), clientIp), now).value]
  {
    var admitted := limiter.Admit(clientIp, now);
    if !admitted {
      return TooManyRequests;
    }
    var validation := ParseTripRequest(body);
    if validation.None? {
      return BadRequest;
    }
    var input := validation.value;
    res := Ok(MockRoutes(input.origin, input.destination));
  }
}

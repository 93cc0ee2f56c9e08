/** The live running-status summary (lib/services/liveTrainService.ts).  The
    HTTP request is left out: the model starts from the decoded response, or
    None when the request failed. */
module LiveTrain {
  import opened Wrappers
  import TrainApi

  /** A station row of the running-status response; the same record as the
      train-data service reads. */
  type StationStatus = TrainApi.Station

  datatype LiveTrainResponse = LiveTrainResponse(
    success: bool, trainName: string, message: string, updatedTime: string,
    data: Option<seq<StationStatus>>)

  datatype LiveTrainSummary = LiveTrainSummary(
    trainName: string,
    currentStation: Option<string>,
    delayStatus: string,
    lastUpdated: string,
    upcomingStations: seq<StationStatus>)

  /** `fetchLiveTrainStatusRaw` after the request: an unsuccessful response is null. */
  function LiveTrainStatusRaw(response: Option<LiveTrainResponse>): (r: Option<LiveTrainResponse>)
    ensures r.Some? <==> response.Some? && response.value.success
    ensures r.Some? ==> r == response
  {
    if response.Some? && response.value.success then response else None
  }

  /** `findIndex(s => s.is_current_station)`: the first flagged index, or -1. */
  function FindCurrent(stations: seq<StationStatus>): (r: int)
    ensures -1 <= r < |stations|
    ensures r == -1 <==> forall j :: 0 <= j < |stations| ==> !stations[j].isCurrent
    ensures r >= 0 ==> stations[r].isCurrent && forall j :: 0 <= j < r ==> !stations[j].isCurrent
  {
    if stations == [] then -1
    else if stations[0].isCurrent then 0
    else
      var k := FindCurrent(stations[1..]);
      if k == -1 then -1 else k + 1
  }

  /** `s.slice(start, end)` for non-negative bounds: the end is clamped to the length. */
  function Slice(s: seq<StationStatus>, start: nat, end: nat): (r: seq<StationStatus>)
    ensures start <= end && end <= |s| ==> r == s[start..end]
    ensures |r| <= end - start || start > end
  {
    var e := if end <= |s| then end else |s|;
    if start >= e then [] else s[start..e]
  }

  /** `u` is the contiguous run of `s` starting at index `k`. */
  predicate IsRunAt(s: seq<StationStatus>, u: seq<StationStatus>, k: nat) {
    k + |u| <= |s| && s[k..k + |u|] == u
  }

  /** `getLiveTrainSummary` applied to the raw status (already null when the
      response was unsuccessful). */
  function LiveTrainSummaryOf(raw: Option<LiveTrainResponse>): (r: Option<LiveTrainSummary>)
    ensures r.None? <==> raw.None? || !raw.value.success || raw.value.data.None?
    ensures r.Some? ==>
      && r.value.trainName == raw.value.trainName
      && r.value.lastUpdated == raw.value.updatedTime
      && |r.value.upcomingStations| <= 3
  {
    if raw.None? || !raw.value.success || raw.value.data.None? then None
    else
      var stations := raw.value.data.value;
      var currentIndex := FindCurrent(stations);
      var summary :=
        if currentIndex != -1 then
          var current := stations[currentIndex];
          LiveTrainSummary(raw.value.trainName, Some(current.name), current.delay, raw.value.updatedTime,
                           Slice(stations, currentIndex + 1, currentIndex + 4))
        else if |stations| > 0 then
          var first := stations[0];
          var last := stations[|stations| - 1];
          if last.timing == "Destination" && last.distance != "-" then
            LiveTrainSummary(raw.value.trainName, Some(last.name), last.delay, raw.value.updatedTime, [])
          else
            LiveTrainSummary(raw.value.trainName, Some(first.name), first.delay, raw.value.updatedTime,
                             Slice(stations, 1, 4))
        else
          LiveTrainSummary(raw.value.trainName, None, "Unknown", raw.value.updatedTime, []);
      Some(summary)
  }

  /** The upcoming stations are consecutive stations of the response. */
  lemma UpcomingIsRun(raw: LiveTrainResponse)
    requires raw.success && raw.data.Some?
    ensures var s := raw.data.value;
      exists k: nat :: k <= |s| && IsRunAt(s, LiveTrainSummaryOf(Some(raw)).value.upcomingStations, k)
  {
    var s := raw.data.value;
    var c := FindCurrent(s);
    if c != -1 {
      RunAfterCurrent(raw, c);
    } else {
      RunWithoutCurrent(raw);
    }
  }

  lemma RunAfterCurrent(raw: LiveTrainResponse, c: nat)
    requires raw.success && raw.data.Some? && c == FindCurrent(raw.data.value)
    ensures c + 1 <= |raw.data.value|
    ensures IsRunAt(raw.data.value, LiveTrainSummaryOf(Some(raw)).value.upcomingStations, c + 1)
  {
    SummaryAtCurrentStation(raw, c);
  }

  lemma RunWithoutCurrent(raw: LiveTrainResponse)
    requires raw.success && raw.data.Some? && FindCurrent(raw.data.value) == -1
    ensures var u := LiveTrainSummaryOf(Some(raw)).value.upcomingStations;
      IsRunAt(raw.data.value, u, 0) || (|raw.data.value| >= 1 && IsRunAt(raw.data.value, u, 1))
  {
    var s := raw.data.value;
    if |s| > 0 {
      var last := s[|s| - 1];
      if last.timing == "Destination" && last.distance != "-" {
        SummaryOfCompletedJourney(raw);
      } else {
        SummaryOfPendingJourney(raw);
      }
    }
  }

  /** `getLiveTrainSummary` from the decoded response: an unsuccessful
      response yields null, like a failed request. */
  function GetLiveTrainSummary(response: Option<LiveTrainResponse>): (r: Option<LiveTrainSummary>)
    ensures r.None? <==> response.None? || !response.value.success || response.value.data.None?
    ensures r.Some? ==> r.value.trainName == response.value.trainName
  {
    LiveTrainSummaryOf(LiveTrainStatusRaw(response))
  }

  /** A flagged station: the first flagged one is reported with the next at
      most three stations. */
  lemma SummaryAtCurrentStation(raw: LiveTrainResponse, i: nat)
    requires raw.success && raw.data.Some? && i < |raw.data.value|
    requires raw.data.value[i].isCurrent
    ensures var s := raw.data.value; var c := FindCurrent(s);
      && 0 <= c <= i
      && LiveTrainSummaryOf(Some(raw)) == Some(LiveTrainSummary(
           raw.trainName, Some(s[c].name), s[c].delay, raw.updatedTime,
           s[c + 1..if c + 4 <= |s| then c + 4 else |s|]))
  {
    var s := raw.data.value;
    var c := FindCurrent(s);
    var e := if c + 4 <= |s| then c + 4 else |s|;
    assert Slice(s, c + 1, c + 4) == s[c + 1..e];
  }

  /** No flagged station and a completed journey: the last station, nothing upcoming. */
  lemma SummaryOfCompletedJourney(raw: LiveTrainResponse)
    requires raw.success && raw.data.Some? && |raw.data.value| > 0
    requires forall j :: 0 <= j < |raw.data.value| ==> !raw.data.value[j].isCurrent
    requires var last := raw.data.value[|raw.data.value| - 1]; last.timing == "Destination" && last.distance != "-"
    ensures var last := raw.data.value[|raw.data.value| - 1];
      LiveTrainSummaryOf(Some(raw)) == Some(LiveTrainSummary(raw.trainName, Some(last.name), last.delay, raw.updatedTime, []))
  {
  }

  /** No flagged station otherwise: the first station and the three after it. */
  lemma SummaryOfPendingJourney(raw: LiveTrainResponse)
    requires raw.success && raw.data.Some? && |raw.data.value| > 0
    requires forall j :: 0 <= j < |raw.data.value| ==> !raw.data.value[j].isCurrent
    requires var last := raw.data.value[|raw.data.value| - 1]; !(last.timing == "Destination" && last.distance != "-")
    ensures var s := raw.data.value;
      LiveTrainSummaryOf(Some(raw)) == Some(LiveTrainSummary(raw.trainName, Some(s[0].name), s[0].delay, raw.updatedTime,
                                                              s[1..if 4 <= |s| then 4 else |s|]))
  {
    var s := raw.data.value;
    assert FindCurrent(s) == -1;
    assert Slice(s, 1, 4) == s[1..if 4 <= |s| then 4 else |s|];
  }

  /** An empty station list: no current station and an 'Unknown' delay. */
  lemma SummaryOfNoStations(raw: LiveTrainResponse)
    requires raw.success && raw.data == Some([])
    ensures LiveTrainSummaryOf(Some(raw)) == Some(LiveTrainSummary(raw.trainName, None, "Unknown", raw.updatedTime, []))
  {
  }
}
